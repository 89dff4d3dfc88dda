/**
 * `neo4j.GraphDatabaseHeartbeat`: a registry of listeners and a pulse that
 * polls the server's monitor service, appends the samples that carry data
 * to those kept so far, and hands the new samples to every listener.
 * The monitor's answer arrives as a separate call (`ProcessMonitorData`);
 * the interval timer is left to the caller, who calls `Beat`.
 */
module Heartbeat {
  import opened Wrappers
  import opened Strings
  import opened JsValue
  import OrderedMaps

  /** The granularities of the server's monitor data, in seconds. */
  const YEAR: int := 60 * 60 * 24 * 365
  const MONTH: int := 60 * 60 * 24 * 31
  const WEEK: int := 60 * 60 * 24 * 7
  const DAY: int := 60 * 60 * 24
  const HOURS: int := 60 * 60 * 6
  const MINUTES: int := 60 * 35

  /** Named sample series, in the order the server lists them. */
  type Series = OrderedMaps.Entries<seq<Value>>

  /** `getCachedData()`. */
  datatype CachedData = CachedData(timestamps: seq<Value>, data: Series, endTimestamp: int, startTimestamp: int)

  /** The `newData` part of what listeners are handed. */
  datatype NewData = NewData(data: Series, timestamps: seq<Value>, endTime: int, startTime: Value)

  /** One `callListeners`: the listeners called, in registry order, and what each is handed. */
  datatype Notification = Notification(listeners: seq<Value>, newData: NewData, allData: CachedData)

  /** The property name a listener id is stored under. */
  function IdKey(id: nat): string
  {
    NatToString(id)
  }

  function ListenerValues(e: OrderedMaps.Entries<Value>): (r: seq<Value>)
    ensures |r| == |e| && forall i | 0 <= i < |e| :: r[i] == e[i].1
  {
    seq(|e|, i requires 0 <= i < |e| => e[i].1)
  }

  /** `typeof series[i] === "number"`; outside the array the element is `undefined`. */
  predicate IsNumberAt(series: seq<Value>, i: int)
  {
    0 <= i < |series| && series[i].Num?
  }

  function ItemsOf(v: Value): seq<Value>
  {
    if v.Arr? then v.items else []
  }

  function TimestampsOf(answer: Value): seq<Value>
  {
    ItemsOf(Field(answer, "timestamps"))
  }

  /** The members of `data.data`, in `for (key in data.data)` order. */
  function SeriesFields(answer: Value): OrderedMaps.Entries<Value>
  {
    var d := Field(answer, "data");
    if d.Obj? then d.fields else []
  }

  function SeriesOf(answer: Value, key: string): seq<Value>
  {
    ItemsOf(Field(Field(answer, "data"), key))
  }

  /**
   * The monitor answer the merge reads: `timestamps` an array of numbers
   * and `data` an object whose every member is an array.
   */
  predicate WellShaped(answer: Value)
  {
    && Field(answer, "timestamps").Arr?
    && (forall t | t in Field(answer, "timestamps").items :: t.Num?)
    && Field(answer, "data").Obj?
    && OrderedMaps.UniqueKeys(Field(answer, "data").fields)
    && (forall p | p in Field(answer, "data").fields :: p.1.Arr?)
  }

  /** The first key `for (key in v)` visits, if any. */
  function ForInFirst(v: Value): Option<string>
  {
    match v
    case Obj(fields) => if fields == [] then None else Some(fields[0].0)
    case Arr(items) => if items == [] then None else Some("0")
    case Str(s) => if s == "" then None else Some("0")
    case _ => None
  }

  /**
   * `getFirstKey(o)`: the first key of `o.data` when `o`
   * is of type "object", and `null` when there is none or it is empty
   * (falsy). Reading `null.data` throws, so `o` is not `null`.
   */
  function FirstKey(o: Value): (r: Option<string>)
    requires !o.Null?
    ensures r.Some? ==> r.value != ""
    ensures !IsObjectType(o) ==> r.None?
    ensures o.Obj? && Field(o, "data").Obj? ==>
      var fields := Field(o, "data").fields;
      (r.Some? <==> fields != [] && fields[0].0 != "") && (r.Some? ==> r.value == fields[0].0)
  {
    var key := if IsObjectType(o) then ForInFirst(Field(o, "data")) else None;
    if key.Some? && key.value != "" then key else None
  }

  /** The last index below `n` whose element is a number, or -1. */
  function LastNumberBelow(series: seq<Value>, n: nat): (r: int)
    ensures -1 <= r < n
    ensures r >= 0 ==> IsNumberAt(series, r)
    ensures forall j | r < j < n :: !IsNumberAt(series, j)
    decreases n
  {
    if n == 0 then -1
    else if IsNumberAt(series, n - 1) then n - 1
    else LastNumberBelow(series, n - 1)
  }

  /** The first index from `i` up to `last` whose element is a number, or `last + 1`. */
  function FirstNumberFrom(series: seq<Value>, i: nat, last: int): (r: int)
    requires i <= last + 1
    ensures i <= r <= last + 1
    ensures r <= last ==> IsNumberAt(series, r)
    ensures forall j | i <= j < r :: !IsNumberAt(series, j)
    decreases last + 1 - i
  {
    if i > last then i
    else if IsNumberAt(series, i) then i
    else FirstNumberFrom(series, i + 1, last)
  }

  datatype Boundaries = Boundaries(dataStart: int, dataEnd: int)

  /**
   * What `findDataBoundaries` answers: over the first series, `dataEnd`
   * is the last timestamp index holding a number (-1 if none) and
   * `dataStart` the first, which is 0 when there is none; with no series
   * both are -1.
   */
  function DataBoundaries(answer: Value): (b: Boundaries)
    requires !answer.Null?
    ensures FirstKey(answer).None? ==> b == Boundaries(-1, -1)
    ensures FirstKey(answer).Some? ==>
      var series := SeriesOf(answer, FirstKey(answer).value);
      && -1 <= b.dataEnd < |TimestampsOf(answer)|
      && (b.dataEnd >= 0 ==> IsNumberAt(series, b.dataEnd) && 0 <= b.dataStart <= b.dataEnd && IsNumberAt(series, b.dataStart))
      && (b.dataEnd < 0 ==> b.dataStart == 0)
      && (forall j | b.dataEnd < j < |TimestampsOf(answer)| :: !IsNumberAt(series, j))
      && (forall j | 0 <= j < b.dataStart :: !IsNumberAt(series, j))
  {
    match FirstKey(answer)
    case None => Boundaries(-1, -1)
    case Some(key) =>
      var series := SeriesOf(answer, key);
      var last := LastNumberBelow(series, |TimestampsOf(answer)|);
      Boundaries(FirstNumberFrom(series, 0, last), last)
  }

  /** `findDataBoundaries(data)`: the two scans, from the end and from the start. */
  method FindDataBoundaries(answer: Value) returns (dataStart: int, dataEnd: int)
    requires !answer.Null?
    ensures Boundaries(dataStart, dataEnd) == DataBoundaries(answer)
  {
    var firstKey := FirstKey(answer);
    dataEnd := -1;
    dataStart := -1;
    if firstKey.Some? {
      var series := SeriesOf(answer, firstKey.value);
      var n := |TimestampsOf(answer)|;
      dataEnd := n - 1;
      while dataEnd >= 0
        invariant -1 <= dataEnd < n
        invariant LastNumberBelow(series, n) == LastNumberBelow(series, dataEnd + 1)
      {
        if IsNumberAt(series, dataEnd) {
          break;
        }
        dataEnd := dataEnd - 1;
      }
      dataStart := 0;
      while dataStart <= dataEnd
        invariant 0 <= dataStart <= dataEnd + 1
        invariant FirstNumberFrom(series, 0, dataEnd) == FirstNumberFrom(series, dataStart, dataEnd)
      {
        if IsNumberAt(series, dataStart) {
          break;
        }
        dataStart := dataStart + 1;
      }
    }
  }

  function Min(a: int, b: int): int
  {
    if a < b then a else b
  }

  /** `items.splice(start, count)`: the run it removes and returns, clamped to the array. */
  function Splice(items: seq<Value>, start: nat, count: nat): (r: seq<Value>)
    ensures start + count <= |items| ==> r == items[start..start + count]
    ensures |r| <= count
  {
    items[Min(start, |items|)..Min(start + count, |items|)]
  }

  /** `newData`: each series cut to the run `splice(start, count)` removes, under its own name. */
  function Slices(series: OrderedMaps.Entries<Value>, start: nat, count: nat): (r: Series)
    ensures |r| == |series|
    ensures forall i | 0 <= i < |series| :: r[i] == (series[i].0, Splice(ItemsOf(series[i].1), start, count))
  {
    seq(|series|, i requires 0 <= i < |series| => (series[i].0, Splice(ItemsOf(series[i].1), start, count)))
  }

  /** The kept series after the incoming runs are appended, one name at a time; a new name starts empty. */
  function Merged(store: Series, incoming: Series): Series
    decreases |incoming|
  {
    if incoming == [] then store
    else
      var before := Merged(store, incoming[..|incoming| - 1]);
      var (key, run) := incoming[|incoming| - 1];
      OrderedMaps.Put(before, key, OrderedMaps.Get(before, key).UnwrapOr([]) + run)
  }

  /** Each incoming run lands at the end of the series of its name; every other series is as it was. */
  lemma {:induction false} MergedGet(store: Series, incoming: Series, k: string)
    requires OrderedMaps.UniqueKeys(incoming)
    ensures OrderedMaps.Get(Merged(store, incoming), k) ==
      match OrderedMaps.Get(incoming, k)
      case Some(run) => Some(OrderedMaps.Get(store, k).UnwrapOr([]) + run)
      case None => OrderedMaps.Get(store, k)
    decreases |incoming|
  {
    if incoming != [] {
      var init := incoming[..|incoming| - 1];
      var (key, run) := incoming[|incoming| - 1];
      assert incoming == init + [(key, run)];
      assert OrderedMaps.UniqueKeys(init);
      assert OrderedMaps.Get(init, key).None? by {
        forall j | 0 <= j < |init| ensures init[j].0 != key {
          assert init[j] == incoming[j];
        }
      }
      var before := Merged(store, init);
      MergedGet(store, init, k);
      MergedGet(store, init, key);
      OrderedMaps.PutGet(before, key, OrderedMaps.Get(before, key).UnwrapOr([]) + run, k);
      OrderedMaps.GetSnoc(init, key, run, k);
    }
  }

  /**
   * The `for (key in data.data)` loop: each series cut with `splice` into
   * `newData`, and appended to the kept series of that name.
   */
  method MergeSeries(store: Series, series: OrderedMaps.Entries<Value>, start: nat, count: nat) returns (incoming: Series, merged: Series)
    requires OrderedMaps.UniqueKeys(series)
    ensures incoming == Slices(series, start, count)
    ensures merged == Merged(store, incoming)
  {
    incoming := [];
    merged := store;
    var i := 0;
    while i < |series|
      invariant 0 <= i <= |series|
      invariant incoming == Slices(series[..i], start, count)
      invariant merged == Merged(store, incoming)
    {
      var key := series[i].0;
      var run := Splice(ItemsOf(series[i].1), start, count);
      MergeSeriesStep(store, series, start, count, i);
      incoming := OrderedMaps.Put(incoming, key, run);
      merged := OrderedMaps.Put(merged, key, OrderedMaps.Get(merged, key).UnwrapOr([]) + run);
      i := i + 1;
    }
    assert series[..i] == series;
  }

  /** The samples of `answer` between the two boundaries, and `store` with them appended to every series. */
  method CutSamples(answer: Value, dataStart: int, dataEnd: int, store: Series) returns (update: NewData, merged: Series)
    requires 0 <= dataStart <= dataEnd < |TimestampsOf(answer)| && TimestampsOf(answer)[dataEnd].Num?
    requires OrderedMaps.UniqueKeys(SeriesFields(answer))
    ensures update.data == Slices(SeriesFields(answer), dataStart, dataEnd - dataStart)
    ensures update.timestamps == TimestampsOf(answer)[dataStart..dataEnd]
    ensures update.endTime == TimestampsOf(answer)[dataEnd].n
    ensures update.startTime == Field(answer, "start_time")
    ensures merged == Merged(store, update.data)
  {
    var all := TimestampsOf(answer);
    var newTimestamps := Splice(all, dataStart, dataEnd - dataStart);
    var incoming;
    incoming, merged := MergeSeries(store, SeriesFields(answer), dataStart, dataEnd - dataStart);
    update := NewData(incoming, newTimestamps, all[dataEnd].n, Field(answer, "start_time"));
  }

  /** One turn of the `for (key in data.data)` loop: the new name is cut and appended last. */
  lemma MergeSeriesStep(store: Series, series: OrderedMaps.Entries<Value>, start: nat, count: nat, i: nat)
    requires OrderedMaps.UniqueKeys(series) && i < |series|
    ensures var incoming := Slices(series[..i], start, count);
            var key, run := series[i].0, Splice(ItemsOf(series[i].1), start, count);
            var before := Merged(store, incoming);
            && OrderedMaps.Put(incoming, key, run) == Slices(series[..i + 1], start, count)
            && Merged(store, Slices(series[..i + 1], start, count))
               == OrderedMaps.Put(before, key, OrderedMaps.Get(before, key).UnwrapOr([]) + run)
  {
    var incoming := Slices(series[..i], start, count);
    var key, run := series[i].0, Splice(ItemsOf(series[i].1), start, count);
    var next := Slices(series[..i + 1], start, count);
    assert next == incoming + [(key, run)];
    assert OrderedMaps.Get(incoming, key).None? by {
      forall j | 0 <= j < |incoming| ensures incoming[j].0 != key {
        assert incoming[j].0 == series[j].0;
      }
    }
    OrderedMaps.PutAbsent(incoming, key, run);
    assert next[..|next| - 1] == incoming;
  }

  /** The monitor answered without error and its first series holds a number. */
  predicate HasNewData(answer: Value)
  {
    Truthy(answer) && !Truthy(Field(answer, "error")) && DataBoundaries(answer).dataEnd >= 0
  }

  /**
   * What `adjustRequestedTimespan` moves the end of the requested window
   * to, as written: the last test repeats the one-day test, so a window
   * between six hours and a day is left alone.
   */
  function AdjustedEnd(now: int, end: int): Option<int>
  {
    var timespan := now - end;
    if timespan >= YEAR then Some(now - MONTH)
    else if timespan >= MONTH then Some(now - WEEK)
    else if timespan >= WEEK then Some(now - DAY)
    else if timespan >= DAY then Some(now - HOURS)
    else if timespan >= DAY then Some(now - MINUTES)
    else None
  }

  /** With the last test on six hours, as the step to 35 minutes calls for. */
  function AdjustedEndCorrected(now: int, end: int): Option<int>
  {
    var timespan := now - end;
    if timespan >= YEAR then Some(now - MONTH)
    else if timespan >= MONTH then Some(now - WEEK)
    else if timespan >= WEEK then Some(now - DAY)
    else if timespan >= DAY then Some(now - HOURS)
    else if timespan >= HOURS then Some(now - MINUTES)
    else None
  }

  /** As written, the 35-minute step is never taken: a window of six hours up to a day stays as it is. */
  lemma AdjustedEndSkipsMinutes(now: int, end: int)
    ensures AdjustedEnd(now, end) != Some(now - MINUTES)
    ensures HOURS <= now - end < DAY ==> AdjustedEnd(now, end).None?
  {
  }

  /**
   * Corrected, every window of at least six hours is narrowed: the new
   * end is later than the old one and no later than 35 minutes ago, and
   * a shorter window is left alone.
   */
  lemma AdjustedEndCorrectedNarrows(now: int, end: int)
    ensures AdjustedEndCorrected(now, end).Some? <==> now - end >= HOURS
    ensures AdjustedEndCorrected(now, end).Some? ==>
      end < AdjustedEndCorrected(now, end).value <= now - MINUTES
  {
  }

  /** A number no listener entry is stored under. */
  lemma FreshId(listeners: OrderedMaps.Entries<Value>, idCounter: nat)
    requires forall p | p in listeners :: AllDigits(p.0) && DigitsValue(p.0) < idCounter
    ensures !OrderedMaps.HasKey(listeners, IdKey(idCounter))
  {
    DigitsValueOfNatToString(idCounter);
    forall j | 0 <= j < |listeners| ensures listeners[j].0 != IdKey(idCounter) {
      assert listeners[j] in listeners;
    }
  }

  /** Under boundaries with data, the run is inside the timestamps and the last sample is a number. */
  lemma LastSampleIsNumber(answer: Value, dataStart: int, dataEnd: int)
    requires Truthy(answer) && WellShaped(answer)
    requires Boundaries(dataStart, dataEnd) == DataBoundaries(answer) && dataEnd >= 0
    ensures 0 <= dataStart <= dataEnd < |TimestampsOf(answer)|
    ensures TimestampsOf(answer)[dataEnd].Num?
  {
    assert TimestampsOf(answer)[dataEnd] in Field(answer, "timestamps").items;
  }

  class Heartbeat {
    /** `listeners`: listener id, as a property name, to listener. */
    var listeners: OrderedMaps.Entries<Value>
    var idCounter: nat
    var listenerCounter: int
    const startTimestamp: int
    var endTimestamp: int
    var timestamps: seq<Value>
    var data: Series
    var isPolling: bool
    /** The `from` argument of each `monitor.getDataFrom` issued, in order. */
    var polls: seq<int>
    /** Each `callListeners`, in order. */
    var notifications: seq<Notification>

    /** The counter counts the listeners, and every key is a number below `idCounter`. */
    predicate Valid()
      reads this
    {
      && listenerCounter == |listeners|
      && OrderedMaps.UniqueKeys(listeners)
      && (forall p | p in listeners :: AllDigits(p.0) && DigitsValue(p.0) < idCounter)
    }

    /** `new GraphDatabaseHeartbeat(db)` at time `now` (seconds): data is asked for from a year back. */
    constructor(now: int)
      ensures listeners == [] && idCounter == 0 && listenerCounter == 0
      ensures startTimestamp == now - YEAR && endTimestamp == now - YEAR + 1
      ensures timestamps == [] && data == [] && !isPolling
      ensures polls == [] && notifications == []
      ensures Valid()
    {
      listeners := [];
      idCounter := 0;
      listenerCounter := 0;
      startTimestamp := now - YEAR;
      endTimestamp := now - YEAR + 1;
      timestamps := [];
      data := [];
      isPolling := false;
      polls := [];
      notifications := [];
    }

    /** `getCachedData()`. */
    function GetCachedData(): CachedData
      reads this
    {
      CachedData(timestamps, data, endTimestamp, startTimestamp)
    }

    /**
     * `addListener(listener)`: stored under the old `idCounter`, both
     * counters go up, and the answer is the new `idCounter` - one more than
     * the key the listener is stored under.
     */
    method AddListener(listener: Value) returns (id: nat)
      modifies this
      ensures listeners == OrderedMaps.Put(old(listeners), IdKey(old(idCounter)), listener)
      ensures idCounter == old(idCounter) + 1 && listenerCounter == old(listenerCounter) + 1
      ensures id == old(idCounter) + 1
      ensures old(Valid()) ==> Valid() && listeners == old(listeners) + [(IdKey(old(idCounter)), listener)]
      ensures endTimestamp == old(endTimestamp) && timestamps == old(timestamps) && data == old(data)
      ensures isPolling == old(isPolling) && polls == old(polls) && notifications == old(notifications)
    {
      if Valid() {
        FreshId(listeners, idCounter);
        OrderedMaps.PutAbsent(listeners, IdKey(idCounter), listener);
        DigitsValueOfNatToString(idCounter);
      }
      listenerCounter := listenerCounter + 1;
      listeners := OrderedMaps.Put(listeners, IdKey(idCounter), listener);
      idCounter := idCounter + 1;
      id := idCounter;
    }

    /** `addListener` answering the key the listener is stored under. */
    method AddListenerCorrected(listener: Value) returns (id: nat)
      requires Valid()
      modifies this
      ensures Valid()
      ensures listeners == old(listeners) + [(IdKey(id), listener)]
      ensures id == old(idCounter) && idCounter == old(idCounter) + 1
      ensures endTimestamp == old(endTimestamp) && timestamps == old(timestamps) && data == old(data)
      ensures isPolling == old(isPolling) && polls == old(polls) && notifications == old(notifications)
    {
      FreshId(listeners, idCounter);
      OrderedMaps.PutAbsent(listeners, IdKey(idCounter), listener);
      DigitsValueOfNatToString(idCounter);
      id := idCounter;
      listenerCounter := listenerCounter + 1;
      listeners := OrderedMaps.Put(listeners, IdKey(idCounter), listener);
      idCounter := idCounter + 1;
    }

    /** The `for (key in listeners)` search for the first entry holding `listener` (`===`). */
    method FindListener(listener: Value) returns (found: Option<nat>)
      ensures found.Some? ==> found.value < |listeners| && listeners[found.value].1 == listener
      ensures found.Some? ==> forall j | 0 <= j < found.value :: listeners[j].1 != listener
      ensures found.None? ==> forall j | 0 <= j < |listeners| :: listeners[j].1 != listener
    {
      var i := 0;
      while i < |listeners|
        invariant 0 <= i <= |listeners|
        invariant forall j | 0 <= j < i :: listeners[j].1 != listener
      {
        if listeners[i].1 == listener {
          return Some(i);
        }
        i := i + 1;
      }
      return None;
    }

    /**
     * `removeListener(listener)`, as written. A function is searched for
     * and its entry deleted, but the flag that would lower the counter is
     * never set. Anything else is used as a key: a truthy entry under it is
     * deleted and the counter goes down.
     */
    method RemoveListener(listener: Value)
      modifies this
      ensures listener.Fn? ==> listenerCounter == old(listenerCounter)
      ensures listener.Fn? ==> forall i | 0 <= i < |old(listeners)| && old(listeners)[i].1 == listener
        && (forall j | 0 <= j < i :: old(listeners)[j].1 != listener) ::
        listeners == OrderedMaps.Delete(old(listeners), old(listeners)[i].0)
      ensures listener.Fn? && (forall j | 0 <= j < |old(listeners)| :: old(listeners)[j].1 != listener) ==>
        listeners == old(listeners)
      ensures !listener.Fn? && Truthy(Field(Obj(old(listeners)), ToText(listener))) ==>
        listeners == OrderedMaps.Delete(old(listeners), ToText(listener)) && listenerCounter == old(listenerCounter) - 1
      ensures !listener.Fn? && !Truthy(Field(Obj(old(listeners)), ToText(listener))) ==>
        listeners == old(listeners) && listenerCounter == old(listenerCounter)
      ensures idCounter == old(idCounter) && endTimestamp == old(endTimestamp) && timestamps == old(timestamps) && data == old(data)
      ensures isPolling == old(isPolling) && polls == old(polls) && notifications == old(notifications)
    {
      var listenerWasRemoved := false;
      if listener.Fn? {
        var found := FindListener(listener);
        if found.Some? {
          listeners := OrderedMaps.Delete(listeners, listeners[found.value].0);
        }
      } else {
        var key := ToText(listener);
        if Truthy(Field(Obj(listeners), key)) {
          listeners := OrderedMaps.Delete(listeners, key);
          listenerWasRemoved := true;
        }
      }
      if listenerWasRemoved {
        listenerCounter := listenerCounter - 1;
      }
    }

    /** `removeListener` with the flag set in the function branch too: the counter keeps counting the listeners. */
    method RemoveListenerCorrected(listener: Value)
      requires Valid()
      modifies this
      ensures Valid()
      ensures listener.Fn? ==> forall i | 0 <= i < |old(listeners)| && old(listeners)[i].1 == listener
        && (forall j | 0 <= j < i :: old(listeners)[j].1 != listener) ::
        listeners == OrderedMaps.Delete(old(listeners), old(listeners)[i].0)
      ensures listener.Fn? && (forall j | 0 <= j < |old(listeners)| :: old(listeners)[j].1 != listener) ==>
        listeners == old(listeners)
      ensures !listener.Fn? && Truthy(Field(Obj(old(listeners)), ToText(listener))) ==>
        listeners == OrderedMaps.Delete(old(listeners), ToText(listener))
      ensures !listener.Fn? && !Truthy(Field(Obj(old(listeners)), ToText(listener))) ==>
        listeners == old(listeners)
      ensures idCounter == old(idCounter) && endTimestamp == old(endTimestamp) && timestamps == old(timestamps) && data == old(data)
      ensures isPolling == old(isPolling) && polls == old(polls) && notifications == old(notifications)
    {
      var listenerWasRemoved := false;
      if listener.Fn? {
        var found := FindListener(listener);
        if found.Some? {
          var key := listeners[found.value].0;
          assert OrderedMaps.Keys(listeners)[found.value] == key;
          OrderedMaps.DeleteOne(listeners, key);
          listeners := OrderedMaps.Delete(listeners, key);
          listenerWasRemoved := true;
        }
      } else {
        var key := ToText(listener);
        if Truthy(Field(Obj(listeners), key)) {
          OrderedMaps.DeleteOne(listeners, key);
          listeners := OrderedMaps.Delete(listeners, key);
          listenerWasRemoved := true;
        }
      }
      if listenerWasRemoved {
        listenerCounter := listenerCounter - 1;
      }
    }

    /**
     * `beat()`: a poll from `endTimestamp` is issued only when someone
     * listens, no poll is running and the monitor is available.
     */
    method Beat(monitorAvailable: bool)
      modifies this
      ensures old(listenerCounter) > 0 && !old(isPolling) && monitorAvailable ==>
        isPolling && polls == old(polls) + [endTimestamp]
      ensures !(old(listenerCounter) > 0 && !old(isPolling) && monitorAvailable) ==>
        isPolling == old(isPolling) && polls == old(polls)
      ensures listeners == old(listeners) && idCounter == old(idCounter) && listenerCounter == old(listenerCounter)
      ensures endTimestamp == old(endTimestamp) && timestamps == old(timestamps) && data == old(data)
      ensures notifications == old(notifications)
    {
      if listenerCounter > 0 && !isPolling && monitorAvailable {
        isPolling := true;
        polls := polls + [endTimestamp];
      }
    }

    /**
     * `adjustRequestedTimespan()` at time `now`, with the last test on six
     * hours: a window of six hours or more is narrowed and beats again.
     */
    method AdjustRequestedTimespan(now: int, monitorAvailable: bool)
      modifies this
      ensures AdjustedEndCorrected(now, old(endTimestamp)).None? ==>
        endTimestamp == old(endTimestamp) && isPolling == old(isPolling) && polls == old(polls)
      ensures AdjustedEndCorrected(now, old(endTimestamp)).Some? ==>
        endTimestamp == AdjustedEndCorrected(now, old(endTimestamp)).value
        && (old(listenerCounter) > 0 && !old(isPolling) && monitorAvailable ==> isPolling && polls == old(polls) + [endTimestamp])
        && (!(old(listenerCounter) > 0 && !old(isPolling) && monitorAvailable) ==> isPolling == old(isPolling) && polls == old(polls))
      ensures listeners == old(listeners) && idCounter == old(idCounter) && listenerCounter == old(listenerCounter)
      ensures timestamps == old(timestamps) && data == old(data) && notifications == old(notifications)
    {
      var adjusted := AdjustedEndCorrected(now, endTimestamp);
      if adjusted.Some? {
        endTimestamp := adjusted.value;
        Beat(monitorAvailable);
      }
    }

    /**
     * The new-data branch of `processMonitorData`, given the boundaries:
     * `endTimestamp` moves to the sample at `dataEnd`, and the run from
     * `dataStart` up to `dataEnd` is cut out of the answer and appended.
     */
    method AppendSamples(answer: Value, dataStart: int, dataEnd: int) returns (update: NewData)
      requires 0 <= dataStart <= dataEnd < |TimestampsOf(answer)| && TimestampsOf(answer)[dataEnd].Num?
      requires OrderedMaps.UniqueKeys(SeriesFields(answer))
      modifies this
      ensures update.data == Slices(SeriesFields(answer), dataStart, dataEnd - dataStart)
      ensures update.timestamps == TimestampsOf(answer)[dataStart..dataEnd]
      ensures update.endTime == TimestampsOf(answer)[dataEnd].n
      ensures update.startTime == Field(answer, "start_time")
      ensures endTimestamp == update.endTime
      ensures timestamps == old(timestamps) + update.timestamps
      ensures data == Merged(old(data), update.data)
      ensures listeners == old(listeners) && idCounter == old(idCounter) && listenerCounter == old(listenerCounter)
      ensures isPolling == old(isPolling) && polls == old(polls) && notifications == old(notifications)
    {
      var merged;
      update, merged := CutSamples(answer, dataStart, dataEnd, data);
      endTimestamp := update.endTime;
      timestamps := timestamps + update.timestamps;
      data := merged;
    }

    /** `callListeners(data)`: every listener, in registry order, is handed the new and the kept samples. */
    method CallListeners(update: NewData)
      modifies this
      ensures notifications == old(notifications) + [Notification(ListenerValues(listeners), update, GetCachedData())]
      ensures listeners == old(listeners) && idCounter == old(idCounter) && listenerCounter == old(listenerCounter)
      ensures endTimestamp == old(endTimestamp) && timestamps == old(timestamps) && data == old(data)
      ensures isPolling == old(isPolling) && polls == old(polls)
    {
      notifications := notifications + [Notification(ListenerValues(listeners), update, GetCachedData())];
    }

    /**
     * `processMonitorData(data)`: the poll is over. An answer without
     * error whose first series holds a number moves `endTimestamp` to the
     * last such sample, appends the samples from the first such one up to,
     * not including, the last one to `timestamps` and to every series, and
     * hands them to every listener; an answer without numbers narrows the
     * requested window.
     */
    method ProcessMonitorData(answer: Value, now: int, monitorAvailable: bool)
      requires HasNewData(answer) ==> WellShaped(answer)
      modifies this
      ensures listeners == old(listeners) && idCounter == old(idCounter) && listenerCounter == old(listenerCounter)
      ensures !Truthy(answer) || Truthy(Field(answer, "error")) ==>
        !isPolling && endTimestamp == old(endTimestamp) && polls == old(polls)
        && timestamps == old(timestamps) && data == old(data) && notifications == old(notifications)
      ensures HasNewData(answer) ==>
        var b := DataBoundaries(answer);
        var newTimestamps := TimestampsOf(answer)[b.dataStart..b.dataEnd];
        var incoming := Slices(SeriesFields(answer), b.dataStart, b.dataEnd - b.dataStart);
        && !isPolling && polls == old(polls)
        && endTimestamp == TimestampsOf(answer)[b.dataEnd].n
        && timestamps == old(timestamps) + newTimestamps
        && data == Merged(old(data), incoming)
        && notifications == old(notifications) + [Notification(ListenerValues(listeners),
             NewData(incoming, newTimestamps, endTimestamp, Field(answer, "start_time")), GetCachedData())]
      ensures Truthy(answer) && !Truthy(Field(answer, "error")) && !HasNewData(answer) ==>
        && timestamps == old(timestamps) && data == old(data) && notifications == old(notifications)
        && (AdjustedEndCorrected(now, old(endTimestamp)).None? ==> endTimestamp == old(endTimestamp) && !isPolling && polls == old(polls))
        && (AdjustedEndCorrected(now, old(endTimestamp)).Some? ==>
              endTimestamp == AdjustedEndCorrected(now, old(endTimestamp)).value
              && (old(listenerCounter) > 0 && monitorAvailable ==> isPolling && polls == old(polls) + [endTimestamp])
              && (!(old(listenerCounter) > 0 && monitorAvailable) ==> !isPolling && polls == old(polls)))
    {
      isPolling := false;
      if Truthy(answer) && !Truthy(Field(answer, "error")) {
        var dataStart, dataEnd := FindDataBoundaries(answer);
        if dataEnd >= 0 {
          LastSampleIsNumber(answer, dataStart, dataEnd);
          var update := AppendSamples(answer, dataStart, dataEnd);
          CallListeners(update);
        } else {
          AdjustRequestedTimespan(now, monitorAvailable);
        }
      }
    }
  }

  /**
   * As written, removing a listener by the function itself leaves the
   * counter at one with no listener left, and the next beat still polls.
   */
  method RemoveByFunctionAsWritten(now: int) returns (h: Heartbeat)
    ensures h.listeners == [] && h.listenerCounter == 1
    ensures h.isPolling && h.polls == [now - YEAR + 1]
  {
    h := new Heartbeat(now);
    var id := h.AddListener(Fn(7));
    h.RemoveListener(Fn(7));
    h.Beat(true);
  }

  /** Corrected, the counter drops back to zero and the beat issues no poll. */
  method RemoveByFunctionCorrected(now: int) returns (h: Heartbeat)
    ensures h.listeners == [] && h.listenerCounter == 0
    ensures !h.isPolling && h.polls == []
  {
    h := new Heartbeat(now);
    var id := h.AddListenerCorrected(Fn(7));
    h.RemoveListenerCorrected(Fn(7));
    h.Beat(true);
  }

  /**
   * As written, the id `addListener` answers is not the key the listener
   * is under: removing by that id removes nothing.
   */
  method RemoveByIdAsWritten(now: int) returns (h: Heartbeat, id: nat)
    ensures id == 1
    ensures h.listeners == [("0", Fn(7))] && h.listenerCounter == 1
  {
    h := new Heartbeat(now);
    id := h.AddListener(Fn(7));
    h.RemoveListener(Num(id));
  }

  /** Corrected, removing by the answered id removes the listener. */
  method RemoveByIdCorrected(now: int) returns (h: Heartbeat, id: nat)
    ensures id == 0
    ensures h.listeners == [] && h.listenerCounter == 0
  {
    h := new Heartbeat(now);
    id := h.AddListenerCorrected(Fn(7));
    h.RemoveListenerCorrected(Num(id));
  }
}
