/**
 * JavaScript objects used as dictionaries: string keys in insertion order.
 * Assigning an existing key keeps its position; a new key goes last;
 * `for (k in o)` and `_.keys(o)` visit the keys in that order.
 * (Integer-like keys, which JavaScript visits first in ascending order, are not modelled.)
 */
module OrderedMaps {
  import opened Wrappers

  type Entries<V> = seq<(string, V)>

  function Keys<V>(e: Entries<V>): (ks: seq<string>)
    ensures |ks| == |e|
    ensures forall i | 0 <= i < |e| :: ks[i] == e[i].0
  {
    if e == [] then [] else [e[0].0] + Keys(e[1..])
  }

  predicate HasKey<V>(e: Entries<V>, k: string)
  {
    k in Keys(e)
  }

  predicate UniqueKeys<V>(e: Entries<V>)
  {
    forall i, j | 0 <= i < j < |e| :: e[i].0 != e[j].0
  }

  /** `o[k]`: the value of the first entry with key `k`. */
  function Get<V>(e: Entries<V>, k: string): (r: Option<V>)
    ensures r.None? <==> !HasKey(e, k)
    ensures r.Some? ==> (k, r.value) in e
  {
    if e == [] then None
    else if e[0].0 == k then Some(e[0].1)
    else
      assert Keys(e) == [e[0].0] + Keys(e[1..]);
      Get(e[1..], k)
  }

  /** `o[k] = v`: overwrite in place when present, otherwise append. */
  function Put<V>(e: Entries<V>, k: string, v: V): (r: Entries<V>)
  {
    if e == [] then [(k, v)]
    else if e[0].0 == k then [(k, v)] + e[1..]
    else [e[0]] + Put(e[1..], k, v)
  }

  /** `delete o[k]`: drop the entries with key `k`, keeping the order of the rest. */
  function Delete<V>(e: Entries<V>, k: string): (r: Entries<V>)
    ensures |r| <= |e|
    ensures forall p | p in r :: p in e && p.0 != k
  {
    if e == [] then []
    else if e[0].0 == k then Delete(e[1..], k)
    else [e[0]] + Delete(e[1..], k)
  }

  lemma {:induction false} PutGet<V>(e: Entries<V>, k: string, v: V, k': string)
    ensures Get(Put(e, k, v), k') == if k' == k then Some(v) else Get(e, k')
  {
    if e != [] && e[0].0 != k {
      PutGet(e[1..], k, v, k');
    }
  }

  lemma {:induction false} PutKeys<V>(e: Entries<V>, k: string, v: V)
    ensures Keys(Put(e, k, v)) == if HasKey(e, k) then Keys(e) else Keys(e) + [k]
  {
    if e != [] && e[0].0 != k {
      PutKeys(e[1..], k, v);
      assert Keys(e) == [e[0].0] + Keys(e[1..]);
    } else if e != [] {
      assert Keys(e) == [e[0].0] + Keys(e[1..]);
    }
  }

  /** Appending an entry only answers for a key the entries did not have. */
  lemma {:induction false} GetSnoc<V>(e: Entries<V>, k: string, v: V, k': string)
    ensures Get(e + [(k, v)], k') == if Get(e, k').Some? then Get(e, k') else if k' == k then Some(v) else None
  {
    if e != [] {
      assert (e + [(k, v)])[1..] == e[1..] + [(k, v)];
      GetSnoc(e[1..], k, v, k');
    }
  }

  lemma {:induction false} DeleteGet<V>(e: Entries<V>, k: string, k': string)
    ensures Get(Delete(e, k), k') == if k' == k then None else Get(e, k')
  {
    if e != [] {
      DeleteGet(e[1..], k, k');
    }
  }

  /** An entry whose key no earlier entry has is the one `o[k]` answers. */
  lemma {:induction false} GetFirst<V>(e: Entries<V>, i: int)
    requires 0 <= i < |e| && forall j | 0 <= j < i :: e[j].0 != e[i].0
    ensures Get(e, e[i].0) == Some(e[i].1)
  {
    if i > 0 {
      GetFirst(e[1..], i - 1);
    }
  }

  /** Assigning a key the entries do not have appends it. */
  lemma {:induction false} PutAbsent<V>(e: Entries<V>, k: string, v: V)
    requires !HasKey(e, k)
    ensures Put(e, k, v) == e + [(k, v)]
  {
    if e != [] {
      assert Keys(e) == [e[0].0] + Keys(e[1..]);
      PutAbsent(e[1..], k, v);
      assert e == [e[0]] + e[1..];
    }
  }

  /** Deleting a key the entries do not have changes nothing. */
  lemma {:induction false} DeleteAbsent<V>(e: Entries<V>, k: string)
    requires !HasKey(e, k)
    ensures Delete(e, k) == e
  {
    forall i | 0 <= i < |e| ensures e[i].0 != k {
      assert Keys(e)[i] == e[i].0;
    }
    DeleteNoEntry(e, k);
  }

  lemma {:induction false} DeleteNoEntry<V>(e: Entries<V>, k: string)
    requires forall i | 0 <= i < |e| :: e[i].0 != k
    ensures Delete(e, k) == e
  {
    if e != [] {
      assert e[0].0 != k;
      DeleteNoEntry(e[1..], k);
      assert [e[0]] + e[1..] == e;
    }
  }

  /** Deleting a key that occurs once removes exactly one entry, and the keys stay distinct. */
  lemma {:induction false} DeleteOne<V>(e: Entries<V>, k: string)
    requires UniqueKeys(e) && HasKey(e, k)
    ensures |Delete(e, k)| == |e| - 1
    ensures UniqueKeys(Delete(e, k))
    decreases |e|, 1
  {
    var tail := e[1..];
    assert UniqueKeys(tail) by {
      forall a, b | 0 <= a < b < |tail| ensures tail[a].0 != tail[b].0 {
        assert tail[a] == e[a + 1] && tail[b] == e[b + 1];
      }
    }
    if e[0].0 == k {
      assert !HasKey(tail, k) by {
        forall j | 0 <= j < |tail| ensures tail[j].0 != k {
          assert tail[j] == e[j + 1];
        }
      }
      DeleteAbsent(tail, k);
    } else {
      assert HasKey(tail, k) by {
        assert Keys(e) == [e[0].0] + Keys(tail);
      }
      DeleteTail(e, k);
    }
  }

  lemma {:induction false} DeleteTail<V>(e: Entries<V>, k: string)
    requires e != [] && e[0].0 != k
    requires UniqueKeys(e) && UniqueKeys(e[1..]) && HasKey(e[1..], k)
    ensures |Delete(e, k)| == |e| - 1
    ensures UniqueKeys(Delete(e, k))
    decreases |e|, 0
  {
    var tail := e[1..];
    DeleteOne(tail, k);
    var d := Delete(tail, k);
    assert Delete(e, k) == [e[0]] + d;
    forall p | p in d ensures p.0 != e[0].0 {
      var j :| 0 <= j < |tail| && tail[j] == p;
      assert tail[j] == e[j + 1];
    }
    ConsUnique(e[0], d);
  }

  lemma ConsUnique<V>(h: (string, V), d: Entries<V>)
    requires UniqueKeys(d)
    requires forall p | p in d :: p.0 != h.0
    ensures UniqueKeys([h] + d)
  {
    var x := [h] + d;
    assert x[1..] == d;
    forall a, b | 0 <= a < b < |x| ensures x[a].0 != x[b].0 {
      assert x[b] == d[b - 1];
      if a > 0 {
        assert x[a] == d[a - 1];
      }
    }
  }

  /** `o[key] = value` for each entry in turn, starting from `{}`. */
  function Assign<V>(e: Entries<V>): Entries<V>
    decreases |e|
  {
    if e == [] then []
    else Put(Assign(e[..|e| - 1]), e[|e| - 1].0, e[|e| - 1].1)
  }

  /** `e[i]` is the last entry with key `k`. */
  predicate LastEntry<V>(e: Entries<V>, k: string, i: int)
  {
    0 <= i < |e| && e[i].0 == k && forall j | i < j < |e| :: e[j].0 != k
  }

  /** The last entry with a key stays the last when an entry with another key follows. */
  lemma LastEntrySnoc<V>(e: Entries<V>, k: string, i: int)
    requires |e| > 0 && e[|e| - 1].0 != k && LastEntry(e[..|e| - 1], k, i)
    ensures LastEntry(e, k, i) && e[i] == e[..|e| - 1][i]
  {
    forall j | i < j < |e| ensures e[j].0 != k {
      if j < |e| - 1 { assert e[j] == e[..|e| - 1][j]; }
    }
  }

  /** Assigning entries in turn: a key no entry has is absent, and every other key is present. */
  lemma {:induction false} AssignHas<V>(e: Entries<V>, k: string)
    ensures Get(Assign(e), k).None? <==> forall i | 0 <= i < |e| :: e[i].0 != k
    decreases |e|
  {
    if e != [] {
      var n := |e| - 1;
      var init := e[..n];
      assert Assign(e) == Put(Assign(init), e[n].0, e[n].1);
      AssignHas(init, k);
      PutGet(Assign(init), e[n].0, e[n].1, k);
      if e[n].0 != k && Get(Assign(init), k).None? {
        forall i | 0 <= i < |e| ensures e[i].0 != k {
          if i < n { assert e[i] == init[i]; }
        }
      }
      if Get(Assign(init), k).Some? {
        var i :| 0 <= i < n && init[i].0 == k;
        assert e[i] == init[i];
      }
    }
  }

  /** Assigning entries in turn: a key present holds the value of its last entry. */
  lemma {:induction false} AssignGet<V>(e: Entries<V>, k: string)
    ensures Get(Assign(e), k).Some? ==>
              exists i :: LastEntry(e, k, i) && Get(Assign(e), k).value == e[i].1
    decreases |e|
  {
    if e != [] {
      var n := |e| - 1;
      var init := e[..n];
      assert Assign(e) == Put(Assign(init), e[n].0, e[n].1);
      PutGet(Assign(init), e[n].0, e[n].1, k);
      if e[n].0 == k {
        assert LastEntry(e, k, n);
      } else if Get(Assign(init), k).Some? {
        AssignGet(init, k);
        var i :| LastEntry(init, k, i) && Get(Assign(init), k).value == init[i].1;
        LastEntrySnoc(e, k, i);
      }
    }
  }
}
