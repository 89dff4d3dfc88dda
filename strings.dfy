/**
 * The JavaScript string operations the client relies on, with their
 * JavaScript edge cases: `indexOf` answers -1 when the pattern is absent,
 * `substring` clamps a negative start to 0, `split` on an absent separator
 * answers the whole string, and `replace` with a string pattern substitutes
 * the first occurrence only.
 */
module Strings {

  /** `pat` occurs in `s` starting at index `i`. */
  predicate At(s: string, pat: string, i: int)
  {
    0 <= i && i + |pat| <= |s| && s[i..i + |pat|] == pat
  }

  /** `s.indexOf(pat, from)` for `0 <= from <= |s|`. */
  function IndexOfFrom(s: string, pat: string, from: nat): (r: int)
    requires from <= |s|
    ensures r == -1 || (from <= r <= |s| && At(s, pat, r))
    ensures r != -1 ==> forall j | from <= j < r :: !At(s, pat, j)
    ensures r == -1 ==> forall j | from <= j <= |s| :: !At(s, pat, j)
    decreases |s| - from
  {
    if At(s, pat, from) then from
    else if from == |s| then -1
    else IndexOfFrom(s, pat, from + 1)
  }

  /** `s.indexOf(pat)`. */
  function IndexOf(s: string, pat: string): int
  {
    IndexOfFrom(s, pat, 0)
  }

  /** `s.indexOf(pat, from)`: a start outside the string is clamped into it. */
  function IndexOfStartingAt(s: string, pat: string, from: int): int
  {
    IndexOfFrom(s, pat, if from < 0 then 0 else if from > |s| then |s| else from)
  }

  /** The idiom `s.indexOf(p) === 0` is exactly "s starts with p". */
  lemma IndexOfZeroIffPrefix(s: string, p: string)
    ensures IndexOf(s, p) == 0 <==> p <= s
  {
    if p <= s {
      assert s[0..|p|] == p;
    }
  }

  /** The idiom `s.indexOf(pat) != -1` is exactly "pat occurs in s". */
  lemma IndexOfFound(s: string, pat: string)
    ensures IndexOf(s, pat) != -1 <==> exists i :: At(s, pat, i)
  {
  }

  /** A pattern found in a string is still found, at the same index, once text is appended. */
  lemma AtAppend(s: string, suffix: string, pat: string, i: int)
    requires At(s, pat, i)
    ensures At(s + suffix, pat, i)
  {
    assert (s + suffix)[i..i + |pat|] == s[i..i + |pat|];
  }

  /** A one-character pattern occurs exactly where that character stands. */
  lemma AtChar(s: string, c: char, i: int)
    ensures At(s, [c], i) <==> 0 <= i < |s| && s[i] == c
  {
    if 0 <= i < |s| {
      assert s[i..i + 1] == [s[i]];
    }
  }

  /** `s.lastIndexOf(c)` for a one-character pattern. */
  function LastIndexOf(s: string, c: char): (r: int)
    ensures -1 <= r < |s|
    ensures r >= 0 ==> s[r] == c && forall j | r < j < |s| :: s[j] != c
    ensures r == -1 ==> c !in s
  {
    if s == [] then -1
    else if s[|s| - 1] == c then |s| - 1
    else LastIndexOf(s[..|s| - 1], c)
  }

  /** `s.substring(start)`: a negative start counts as 0, one beyond the end as the end. */
  function Substring(s: string, start: int): (r: string)
    ensures start <= 0 ==> r == s
    ensures 0 <= start <= |s| ==> s == s[..start] + r
  {
    if start <= 0 then s else if start >= |s| then "" else s[start..]
  }

  /** `s.split(c)` for a one-character separator. */
  function Split(s: string, c: char): (parts: seq<string>)
    ensures |parts| >= 1
    ensures forall i | 0 <= i < |parts| :: c !in parts[i]
  {
    if s == [] then [""]
    else
      var rest := Split(s[1..], c);
      if s[0] == c then [""] + rest
      else [[s[0]] + rest[0]] + rest[1..]
  }

  /** `parts.join(sep)`. */
  function Join(parts: seq<string>, sep: string): string
  {
    if parts == [] then ""
    else if |parts| == 1 then parts[0]
    else parts[0] + sep + Join(parts[1..], sep)
  }

  /** Splitting on a character and joining the parts with it gives the string back. */
  lemma {:induction false} JoinSplit(s: string, c: char)
    ensures Join(Split(s, c), [c]) == s
  {
    if s != [] {
      var rest := Split(s[1..], c);
      JoinSplit(s[1..], c);
      if s[0] == c {
        assert Split(s, c) == [""] + rest;
      } else {
        var parts := Split(s, c);
        assert parts == [[s[0]] + rest[0]] + rest[1..];
        if |rest| == 1 {
          assert Join(parts, [c]) == [s[0]] + rest[0];
        } else {
          assert parts[1..] == rest[1..];
          assert Join(parts, [c]) == [s[0]] + (rest[0] + [c] + Join(rest[1..], [c]));
        }
      }
    }
  }

  /** When `c` does not occur in `s`, splitting answers the whole string. */
  lemma {:induction false} SplitAbsent(s: string, c: char)
    requires c !in s
    ensures Split(s, c) == [s]
  {
    if s != [] {
      assert c !in s[1..];
      SplitAbsent(s[1..], c);
      assert s[0] != c;
      assert [s[0]] + s[1..] == s;
    }
  }

  /** Splitting `a + [c] + b` where `a` has no `c` puts `a` first and splits `b` for the rest. */
  lemma {:induction false} SplitFirst(a: string, c: char, b: string)
    requires c !in a
    ensures Split(a + [c] + b, c) == [a] + Split(b, c)
  {
    if a == [] {
      assert a + [c] + b == [c] + b;
      assert ([c] + b)[1..] == b;
    } else {
      assert (a + [c] + b)[1..] == a[1..] + [c] + b;
      SplitFirst(a[1..], c, b);
      assert a == [a[0]] + a[1..];
    }
  }

  /** A prefix without `c` is the start of the first part, whatever follows it. */
  lemma {:induction false} SplitHead(a: string, c: char, b: string)
    requires c !in a
    ensures Split(a + b, c)[0] == a + Split(b, c)[0]
  {
    if a == [] {
      assert a + b == b;
    } else {
      assert (a + b)[1..] == a[1..] + b;
      SplitHead(a[1..], c, b);
      assert a == [a[0]] + a[1..];
    }
  }

  /**
   * The text that replaces a match of a string pattern: in the replacement
   * `rep`, `$$` stands for `$`, `$&` for the matched text, `` $` `` for the
   * text before the match and `$'` for the text after it; a string pattern
   * has no groups, so any other `$` is kept as it is.
   */
  function Expand(rep: string, matched: string, before: string, after: string): string
  {
    if |rep| >= 2 && rep[0] == '$' && rep[1] in "$&`'" then
      (if rep[1] == '$' then "$" else if rep[1] == '&' then matched else if rep[1] == '`' then before else after)
      + Expand(rep[2..], matched, before, after)
    else if rep == [] then []
    else [rep[0]] + Expand(rep[1..], matched, before, after)
  }

  /** A replacement without `$` is inserted as it is. */
  lemma {:induction false} ExpandPlain(rep: string, matched: string, before: string, after: string)
    requires '$' !in rep
    ensures Expand(rep, matched, before, after) == rep
  {
    if rep != [] {
      assert rep[0] != '$';
      assert forall c | c in rep[1..] :: c in rep;
      ExpandPlain(rep[1..], matched, before, after);
      assert rep == [rep[0]] + rep[1..];
    }
  }

  /** `$&` puts the match back and `$$` gives a single `$`. */
  lemma ExpandPatterns(matched: string, before: string, after: string)
    ensures Expand("$&", matched, before, after) == matched
    ensures Expand("$$", matched, before, after) == "$"
    ensures Expand("$1", matched, before, after) == "$1"
  {
    assert "$&"[2..] == [] && "$$"[2..] == [];
    assert "$1"[1..] == "1" && "1"[1..] == [];
  }

  /** `s.replace(pat, rep)` with a string pattern: only the first occurrence is replaced, by `rep` expanded. */
  function ReplaceFirst(s: string, pat: string, rep: string): string
  {
    var i := IndexOf(s, pat);
    if i < 0 then s else s[..i] + Expand(rep, pat, s[..i], s[i + |pat|..]) + s[i + |pat|..]
  }

  /** The occurrence replaced is the first one; a string without the pattern is unchanged. */
  lemma ReplaceFirstAt(a: string, pat: string, b: string, rep: string)
    requires forall j | 0 <= j < |a| :: !At(a + pat + b, pat, j)
    ensures ReplaceFirst(a + pat + b, pat, rep) == a + Expand(rep, pat, a, b) + b
  {
    var s := a + pat + b;
    assert At(s, pat, |a|) by {
      assert s[|a|..|a| + |pat|] == pat;
    }
    assert s[..|a|] == a;
    assert s[|a| + |pat|..] == b;
  }

  predicate IsDigit(c: char)
  {
    '0' <= c <= '9'
  }

  /** The regular expression `/^[0-9]+$/`. */
  predicate AllDigits(s: string)
  {
    |s| > 0 && forall i | 0 <= i < |s| :: IsDigit(s[i])
  }

  function DigitChar(d: nat): char
    requires d < 10
  {
    "0123456789"[d]
  }

  /** Decimal text of a natural number, as `String(n)` prints it. */
  function NatToString(n: nat): (s: string)
    ensures AllDigits(s)
    decreases n
  {
    if n < 10 then [DigitChar(n)] else NatToString(n / 10) + [DigitChar(n % 10)]
  }

  function IntToString(n: int): string
  {
    if n < 0 then "-" + NatToString(-n) else NatToString(n)
  }

  /** The number a string of decimal digits denotes (leading zeros allowed). */
  function DigitsValue(s: string): nat
    requires forall i | 0 <= i < |s| :: IsDigit(s[i])
  {
    if s == [] then 0
    else
      assert IsDigit(s[|s| - 1]);
      DigitsValue(s[..|s| - 1]) * 10 + (s[|s| - 1] as int - '0' as int)
  }

  /** Printing a number and reading it back gives the number. */
  lemma {:induction false} DigitsValueOfNatToString(n: nat)
    ensures DigitsValue(NatToString(n)) == n
    decreases n
  {
    if n >= 10 {
      DigitsValueOfNatToString(n / 10);
      var s := NatToString(n);
      assert s[..|s| - 1] == NatToString(n / 10);
    }
  }

  function LowerChar(c: char): char
  {
    if 'A' <= c <= 'Z' then (c as int + 32) as char else c
  }

  /** `s.toLowerCase()` on ASCII letters. */
  function ToLower(s: string): (r: string)
    ensures |r| == |s|
    ensures forall i | 0 <= i < |s| :: r[i] == LowerChar(s[i])
  {
    if s == [] then [] else [LowerChar(s[0])] + ToLower(s[1..])
  }
}
