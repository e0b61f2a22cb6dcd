/** Quota facts (`internal/quota/manager.go`, `internal/quota/persistence.go`): the index of
    the latest fact per provider, pool and metric, and the bounded history. */
module Quota {
  import opened Keys

  datatype State = Available | Exhausted | Unknown | NotSupported

  datatype Snapshot = Snapshot(provider: string, pool: string, metric: string, state: State,
                               remaining: Option<real>, limit: Option<real>, checkedAt: Time)

  const KEPT: nat := 200

  function SnapshotKey(x: Snapshot): string { x.provider + "\0" + x.pool + "\0" + x.metric }

  function Last(h: seq<Snapshot>, n: nat): seq<Snapshot> { if |h| > n then h[|h| - n..] else h }

  // ---------------------------------------------------------------- the index and its log

  /** The latest fact of a key. */
  function LatestFor(log: seq<Snapshot>, k: string): Option<Snapshot> {
    if log == [] then None
    else if SnapshotKey(log[|log| - 1]) == k then Some(log[|log| - 1])
    else LatestFor(log[..|log| - 1], k)
  }

  function Entry(items: map<string, Snapshot>, k: string): Option<Snapshot> {
    if k in items then Some(items[k]) else None
  }

  ghost predicate IndexOfLog(items: map<string, Snapshot>, log: seq<Snapshot>) {
    forall k :: Entry(items, k) == LatestFor(log, k)
  }

  /** The index and the history say what the log of accepted facts says. */
  ghost predicate Agrees(items: map<string, Snapshot>, history: seq<Snapshot>, log: seq<Snapshot>) {
    && (forall i :: 0 <= i < |log| ==> log[i].provider != "")
    && IndexOfLog(items, log) && history == Last(log, KEPT)
  }

  lemma {:induction false} LatestIs(log: seq<Snapshot>, k: string) returns (i: nat)
    requires LatestFor(log, k).Some?
    ensures i < |log| && log[i] == LatestFor(log, k).value && SnapshotKey(log[i]) == k
    ensures forall j :: i < j < |log| ==> SnapshotKey(log[j]) != k
  {
    i := |log| - 1;
    if SnapshotKey(log[i]) != k {
      i := LatestIs(log[..i], k);
    }
  }

  lemma {:induction false} LatestExists(log: seq<Snapshot>, i: nat)
    requires i < |log|
    ensures LatestFor(log, SnapshotKey(log[i])).Some?
  {
    var n := |log| - 1;
    if i < n && SnapshotKey(log[n]) != SnapshotKey(log[i]) {
      LatestExists(log[..n], i);
    }
  }

  lemma SetExtends(items: map<string, Snapshot>, history: seq<Snapshot>, log: seq<Snapshot>, x: Snapshot)
    requires Agrees(items, history, log) && x.provider != ""
    ensures Agrees(items[SnapshotKey(x) := x], Last(history + [x], KEPT), log + [x])
  {
    var longer := log + [x];
    assert longer[..|log|] == log;
    forall k ensures Entry(items[SnapshotKey(x) := x], k) == LatestFor(longer, k) {
      assert Entry(items, k) == LatestFor(log, k);
    }
  }

  /** The facts of a list that are accepted. */
  function Accepted(xs: seq<Snapshot>): seq<Snapshot> {
    if xs == [] then []
    else
      var x := xs[|xs| - 1];
      Accepted(xs[..|xs| - 1]) + (if x.provider == "" then [] else [x])
  }

  // ---------------------------------------------------------------- the file

  /** What is written: the items in the order the map gives them, and the history, where an
      empty history is written as null. */
  datatype File = File(items: seq<Snapshot>, history: Option<seq<Snapshot>>)

  predicate ListsItems(order: seq<Snapshot>, items: map<string, Snapshot>) {
    (forall x :: x in order ==> x in items.Values) && forall k :: k in items ==> items[k] in order
  }

  function Saved(order: seq<Snapshot>, history: seq<Snapshot>): File {
    File(order, if history == [] then None else Some(history))
  }

  function Indexed(items: map<string, Snapshot>, xs: seq<Snapshot>): map<string, Snapshot> {
    if xs == [] then items
    else
      var x := xs[|xs| - 1];
      var before := Indexed(items, xs[..|xs| - 1]);
      if x.provider == "" then before else before[SnapshotKey(x) := x]
  }

  /** Facts of the history fill in for keys without an item; the first one found stays. */
  function FilledIn(items: map<string, Snapshot>, xs: seq<Snapshot>): map<string, Snapshot> {
    if xs == [] then items
    else
      var x := xs[|xs| - 1];
      var before := FilledIn(items, xs[..|xs| - 1]);
      if x.provider == "" || SnapshotKey(x) in before then before else before[SnapshotKey(x) := x]
  }

  function HistoryOf(f: File): seq<Snapshot> {
    Last(if f.history.Some? then f.history.value else f.items, KEPT)
  }

  function ItemsOf(f: File): map<string, Snapshot> {
    FilledIn(Indexed(map[], f.items), if f.history.Some? then f.history.value else [])
  }

  // ---------------------------------------------------------------- the manager

  class Manager {
    var items: map<string, Snapshot>
    var history: seq<Snapshot>
    /** Every fact accepted so far. */
    ghost var log: seq<Snapshot>

    ghost predicate Valid()
      reads this
    {
      Agrees(items, history, log)
    }

    constructor ()
      ensures Valid() && log == []
    {
      items, history := map[], [];
      log := [];
    }

    method Set(x: Snapshot)
      requires Valid()
      modifies this
      ensures Valid() && log == if x.provider == "" then old(log) else old(log) + [x]
    {
      if x.provider == "" {
        return;
      }
      var longer := history + [x];
      if |longer| > KEPT {
        longer := longer[|longer| - KEPT..];
      }
      SetExtends(items, history, log, x);
      items, history, log := items[SnapshotKey(x) := x], longer, log + [x];
    }

    /** The map is visited in an arbitrary order. */
    method Get(provider: string) returns (found: Option<Snapshot>)
      ensures found.Some? <==> exists k :: k in items && items[k].provider == provider
      ensures found.Some? ==> Newest(items, provider, found.value)
    {
      found := None;
      var todo := items.Keys;
      while todo != {}
        invariant todo <= items.Keys
        invariant found.None? ==> forall k :: k in items && k !in todo ==> items[k].provider != provider
        invariant found.Some? ==> found.value in items.Values && found.value.provider == provider
        invariant found.Some? ==> forall k :: k in items && k !in todo && items[k].provider == provider ==>
          items[k].checkedAt <= found.value.checkedAt
      {
        var k :| k in todo;
        todo := todo - {k};
        var x := items[k];
        if x.provider == provider && (found.None? || x.checkedAt > found.value.checkedAt) {
          found := Some(x);
        }
      }
    }

    method GetMetric(provider: string, metric: string) returns (found: Option<Snapshot>)
      ensures found.Some? <==> exists k :: k in items && items[k].provider == provider && items[k].metric == metric
      ensures found.Some? ==>
        (found.value in items.Values && found.value.provider == provider && found.value.metric == metric
         && forall k :: k in items && items[k].provider == provider && items[k].metric == metric ==>
              items[k].checkedAt <= found.value.checkedAt)
    {
      found := None;
      var todo := items.Keys;
      while todo != {}
        invariant todo <= items.Keys
        invariant found.None? ==> forall k :: k in items && k !in todo ==>
          !(items[k].provider == provider && items[k].metric == metric)
        invariant found.Some? ==> (found.value in items.Values && found.value.provider == provider
                                   && found.value.metric == metric)
        invariant found.Some? ==>
          (forall k :: k in items && k !in todo && items[k].provider == provider && items[k].metric == metric ==>
             items[k].checkedAt <= found.value.checkedAt)
      {
        var k :| k in todo;
        todo := todo - {k};
        var x := items[k];
        if x.provider == provider && x.metric == metric && (found.None? || x.checkedAt > found.value.checkedAt) {
          found := Some(x);
        }
      }
    }

    method All() returns (order: seq<Snapshot>)
      ensures ListsItems(order, items) && |order| == |items|
    {
      order := [];
      var todo := items.Keys;
      while todo != {}
        invariant todo <= items.Keys && |order| + |todo| == |items|
        invariant forall x :: x in order ==> x in items.Values
        invariant forall k :: k in items && k !in todo ==> items[k] in order
      {
        var k :| k in todo;
        todo := todo - {k};
        order := order + [items[k]];
      }
    }

    /** `Save` reads the items and the history under two locks; `meanwhile` are the facts that
        others set between the two. */
    method Save(meanwhile: seq<Snapshot>) returns (f: File)
      requires Valid()
      modifies this
      ensures Valid() && log == old(log) + Accepted(meanwhile)
      ensures ListsItems(f.items, old(items)) && |f.items| == |old(items)| && f == Saved(f.items, history)
    {
      var order := All();
      SetAll(meanwhile);
      f := File(order, if history == [] then None else Some(history));
    }

    method SetAll(xs: seq<Snapshot>)
      requires Valid()
      modifies this
      ensures Valid() && log == old(log) + Accepted(xs)
    {
      for i := 0 to |xs|
        invariant Valid() && log == old(log) + Accepted(xs[..i])
      {
        assert xs[..i + 1][..i] == xs[..i];
        Set(xs[i]);
      }
      assert xs[..|xs|] == xs;
    }

    method Load(f: File)
      modifies this`items, this`history
      ensures items == ItemsOf(f) && history == HistoryOf(f)
    {
      var found := Index(f.items);
      if f.history.Some? {
        found := FillIn(found, f.history.value);
      }
      var h := match f.history case Some(xs) => xs case None => f.items;
      if |h| > KEPT {
        h := h[|h| - KEPT..];
      }
      items, history := found, h;
    }
  }

  method Index(xs: seq<Snapshot>) returns (items: map<string, Snapshot>)
    ensures items == Indexed(map[], xs)
  {
    items := map[];
    for i := 0 to |xs|
      invariant items == Indexed(map[], xs[..i])
    {
      assert xs[..i + 1][..i] == xs[..i];
      if xs[i].provider != "" {
        items := items[SnapshotKey(xs[i]) := xs[i]];
      }
    }
    assert xs[..|xs|] == xs;
  }

  method FillIn(start: map<string, Snapshot>, xs: seq<Snapshot>) returns (items: map<string, Snapshot>)
    ensures items == FilledIn(start, xs)
  {
    items := start;
    for i := 0 to |xs|
      invariant items == FilledIn(start, xs[..i])
    {
      assert xs[..i + 1][..i] == xs[..i];
      if xs[i].provider != "" {
        if SnapshotKey(xs[i]) !in items {
          items := items[SnapshotKey(xs[i]) := xs[i]];
        }
      }
    }
    assert xs[..|xs|] == xs;
  }

  /** A fact of the provider that no other of its facts is newer than. */
  predicate Newest(items: map<string, Snapshot>, provider: string, x: Snapshot) {
    x in items.Values && x.provider == provider
    && forall k :: k in items && items[k].provider == provider ==> items[k].checkedAt <= x.checkedAt
  }

  // ---------------------------------------------------------------- save, then load

  lemma {:induction false} IndexedIs(xs: seq<Snapshot>, items: map<string, Snapshot>)
    requires forall x :: x in xs ==> SnapshotKey(x) in items && items[SnapshotKey(x)] == x && x.provider != ""
    ensures forall k :: k in Indexed(map[], xs) ==> k in items && Indexed(map[], xs)[k] == items[k]
    ensures forall x :: x in xs ==> SnapshotKey(x) in Indexed(map[], xs)
  {
    if xs != [] {
      var n := |xs| - 1;
      assert xs[n] in xs;
      IndexedIs(xs[..n], items);
    }
  }

  lemma {:induction false} NothingToFillIn(items: map<string, Snapshot>, xs: seq<Snapshot>)
    requires forall x :: x in xs ==> SnapshotKey(x) in items
    ensures FilledIn(items, xs) == items
  {
    if xs != [] {
      assert xs[|xs| - 1] in xs;
      NothingToFillIn(items, xs[..|xs| - 1]);
    }
  }

  lemma LogKeys(items: map<string, Snapshot>, history: seq<Snapshot>, log: seq<Snapshot>)
    requires Agrees(items, history, log)
    ensures forall k :: k in items ==> SnapshotKey(items[k]) == k && items[k].provider != ""
    ensures forall x :: x in history ==> SnapshotKey(x) in items && x.provider != ""
    ensures history == [] ==> items == map[]
  {
    forall k | k in items ensures SnapshotKey(items[k]) == k && items[k].provider != "" && log != [] {
      assert Entry(items, k) == LatestFor(log, k);
      var i := LatestIs(log, k);
    }
    forall x | x in history ensures SnapshotKey(x) in items && x.provider != "" {
      var i :| 0 <= i < |log| && log[i] == x;
      LatestExists(log, i);
      assert Entry(items, SnapshotKey(x)) == LatestFor(log, SnapshotKey(x));
    }
  }

  /** The earliest fact of a key. */
  function FirstFor(xs: seq<Snapshot>, k: string): Option<Snapshot> {
    if xs == [] then None
    else
      var before := FirstFor(xs[..|xs| - 1], k);
      if before.None? && SnapshotKey(xs[|xs| - 1]) == k then Some(xs[|xs| - 1]) else before
  }

  lemma {:induction false} FilledInIs(items: map<string, Snapshot>, xs: seq<Snapshot>, k: string)
    requires forall x :: x in xs ==> x.provider != ""
    ensures Entry(FilledIn(items, xs), k) == if k in items then Some(items[k]) else FirstFor(xs, k)
  {
    if xs != [] {
      assert xs[|xs| - 1] in xs;
      FilledInIs(items, xs[..|xs| - 1], k);
    }
  }

  lemma {:induction false} FirstIs(xs: seq<Snapshot>, k: string)
    ensures FirstFor(xs, k).Some? ==> FirstFor(xs, k).value in xs && SnapshotKey(FirstFor(xs, k).value) == k
  {
    if xs != [] {
      FirstIs(xs[..|xs| - 1], k);
    }
  }

  /** The items of a save, in any order, index back to the items. */
  lemma IndexedBack(items: map<string, Snapshot>, history: seq<Snapshot>, log: seq<Snapshot>, order: seq<Snapshot>)
    requires Agrees(items, history, log) && ListsItems(order, items)
    ensures Indexed(map[], order) == items
  {
    LogKeys(items, history, log);
    forall x | x in order ensures SnapshotKey(x) in items && items[SnapshotKey(x)] == x && x.provider != "" {
      var k :| k in items && items[k] == x;
    }
    IndexedIs(order, items);
    forall k | k in items ensures k in Indexed(map[], order) {
      assert items[k] in order;
    }
  }

  lemma NoItems(order: seq<Snapshot>)
    requires ListsItems(order, map[])
    ensures order == []
  {
    SomeElement(order);
  }

  lemma SomeElement(xs: seq<Snapshot>)
    ensures xs == [] || exists x :: x in xs
  {
    if xs != [] {
      assert xs[0] in xs;
    }
  }

  /** What is loaded when the log grew from `early` to `late` between the two reads. */
  lemma LoadedIs(items: map<string, Snapshot>, history: seq<Snapshot>, early: seq<Snapshot>, order: seq<Snapshot>,
                 items2: map<string, Snapshot>, history2: seq<Snapshot>, late: seq<Snapshot>)
    requires Agrees(items, history, early) && ListsItems(order, items)
    requires Agrees(items2, history2, late) && early <= late
    ensures ItemsOf(Saved(order, history2)) == FilledIn(items, history2)
    ensures HistoryOf(Saved(order, history2)) == history2
  {
    IndexedBack(items, history, early, order);
    LogKeys(items, history, early);
    if items == map[] {
      NoItems(order);
    }
  }

  /** Save then load is the identity when nothing is set in between, whatever order the items
      are written in: nothing is filled in from the history, and the fallback for a missing
      history is taken only when there are no items either. */
  lemma SaveLoad(items: map<string, Snapshot>, history: seq<Snapshot>, log: seq<Snapshot>, order: seq<Snapshot>)
    requires Agrees(items, history, log) && ListsItems(order, items)
    ensures ItemsOf(Saved(order, history)) == items
    ensures HistoryOf(Saved(order, history)) == history
  {
    LoadedIs(items, history, log, order, items, history, log);
    LogKeys(items, history, log);
    NothingToFillIn(items, history);
  }

  /** The index survives the two reads: no key of the first read was set again to another fact,
      and a key that is new since then is in the history with its latest fact first. */
  ghost predicate Survives(items: map<string, Snapshot>, items2: map<string, Snapshot>, history2: seq<Snapshot>) {
    forall k :: k in items2 ==>
      (if k in items then items[k] == items2[k] else FirstFor(history2, k) == Some(items2[k]))
  }

  lemma KeysGrow(items: map<string, Snapshot>, early: seq<Snapshot>, items2: map<string, Snapshot>,
                 late: seq<Snapshot>, k: string)
    requires IndexOfLog(items, early) && IndexOfLog(items2, late) && early <= late && k in items
    ensures k in items2
  {
    assert Entry(items, k) == LatestFor(early, k) && Entry(items2, k) == LatestFor(late, k);
    var i := LatestIs(early, k);
    LatestExists(late, i);
  }

  /** With facts set between the two reads, what is loaded is the state at the second read if
      and only if the index survives; it is the state at the first read if and only if the
      history did not change; so it is the state of the whole save if and only if neither
      index nor history changed in between. */
  lemma SaveLoadIff(items: map<string, Snapshot>, history: seq<Snapshot>, early: seq<Snapshot>, order: seq<Snapshot>,
                    items2: map<string, Snapshot>, history2: seq<Snapshot>, late: seq<Snapshot>)
    requires Agrees(items, history, early) && ListsItems(order, items)
    requires Agrees(items2, history2, late) && early <= late
    ensures
      var f := Saved(order, history2);
      && ((ItemsOf(f) == items2 && HistoryOf(f) == history2) <==> Survives(items, items2, history2))
      && ((ItemsOf(f) == items && HistoryOf(f) == history) <==> history == history2)
  {
    LoadedIs(items, history, early, order, items2, history2, late);
    LogKeys(items, history, early);
    LogKeys(items2, history2, late);
    assert forall x :: x in history2 ==> x.provider != "";
    forall k ensures Entry(FilledIn(items, history2), k) == if k in items then Some(items[k]) else FirstFor(history2, k) {
      FilledInIs(items, history2, k);
    }
    if history == history2 {
      NothingToFillIn(items, history);
    }
    if Survives(items, items2, history2) {
      forall k ensures Entry(FilledIn(items, history2), k) == Entry(items2, k) {
        FirstIs(history2, k);
        if k in items {
          KeysGrow(items, early, items2, late, k);
        }
      }
      SameEntries(FilledIn(items, history2), items2);
    }
    if FilledIn(items, history2) == items2 {
      forall k | k in items2
        ensures if k in items then items[k] == items2[k] else FirstFor(history2, k) == Some(items2[k])
      {
        assert Entry(FilledIn(items, history2), k) == Some(items2[k]);
      }
    }
  }

  lemma SameEntries(a: map<string, Snapshot>, b: map<string, Snapshot>)
    requires forall k :: Entry(a, k) == Entry(b, k)
    ensures a == b
  {
    forall k ensures (k in a <==> k in b) && (k in a ==> a[k] == b[k]) {
      assert Entry(a, k) == Entry(b, k);
    }
  }

  /** The failing input: one newer fact of a known key between the two reads.  The loaded index
      keeps the old fact while the loaded history ends with the new one. */
  lemma NewerFactIsLost(items: map<string, Snapshot>, history: seq<Snapshot>, log: seq<Snapshot>,
                        order: seq<Snapshot>, x: Snapshot)
    requires Agrees(items, history, log) && ListsItems(order, items) && x.provider != ""
    requires SnapshotKey(x) in items && items[SnapshotKey(x)] != x
    ensures
      var f := Saved(order, Last(history + [x], KEPT));
      var k := SnapshotKey(x);
      && k in ItemsOf(f) && ItemsOf(f)[k] == items[k] && ItemsOf(f)[k] != x
      && HistoryOf(f) != [] && HistoryOf(f)[|HistoryOf(f)| - 1] == x
  {
    var history2 := Last(history + [x], KEPT);
    SetExtends(items, history, log, x);
    LoadedIs(items, history, log, order, items[SnapshotKey(x) := x], history2, log + [x]);
    LogKeys(items[SnapshotKey(x) := x], history2, log + [x]);
    FilledInIs(items, history2, SnapshotKey(x));
  }

  // ---------------------------------------------------------------- the newest fact

  predicate InOrder(log: seq<Snapshot>) { forall i, j :: 0 <= i < j < |log| ==> log[i].checkedAt <= log[j].checkedAt }

  predicate NulFree(s: string) { '\0' !in s }

  /** The separator tells providers apart. */
  lemma SameProvider(x: Snapshot, y: Snapshot)
    requires NulFree(x.provider) && NulFree(y.provider) && SnapshotKey(x) == SnapshotKey(y)
    ensures x.provider == y.provider
  {
    var k := SnapshotKey(x);
    assert k[..|x.provider|] == x.provider && k[|x.provider|] == '\0';
    assert k[..|y.provider|] == y.provider && k[|y.provider|] == '\0';
    assert forall j :: 0 <= j < |x.provider| ==> k[j] == x.provider[j] != '\0';
    assert forall j :: 0 <= j < |y.provider| ==> k[j] == y.provider[j] != '\0';
    assert |x.provider| == |y.provider|;
  }

  /** When facts arrive in the order they were checked, `Get` finds one that is as new as the
      last fact ever set for the provider. */
  lemma NewestIsLast(items: map<string, Snapshot>, history: seq<Snapshot>, log: seq<Snapshot>, x: Snapshot, i: nat)
    requires Agrees(items, history, log) && InOrder(log) && Newest(items, x.provider, x)
    requires forall j :: 0 <= j < |log| ==> NulFree(log[j].provider)
    requires i < |log| && log[i].provider == x.provider
    requires forall j :: i < j < |log| ==> log[j].provider != x.provider
    ensures x.checkedAt == log[i].checkedAt
  {
    var k :| k in items && items[k] == x;
    assert Entry(items, k) == LatestFor(log, k);
    var a := LatestIs(log, k);
    var key := SnapshotKey(log[i]);
    LatestExists(log, i);
    assert Entry(items, key) == LatestFor(log, key);
    var b := LatestIs(log, key);
    SameProvider(log[b], log[i]);
    assert a <= i && b == i;
  }

  // ---------------------------------------------------------------- keys, lengths and files

  lemma NulPrefix(a: string, b: string, c: string, d: string)
    requires NulFree(a) && NulFree(b) && a + "\0" + c == b + "\0" + d
    ensures a == b && c == d
  {
    var k := a + "\0" + c;
    assert k[|a|] == '\0' && k[|b|] == '\0';
    assert forall j :: 0 <= j < |a| ==> k[j] == a[j] != '\0';
    assert forall j :: 0 <= j < |b| ==> k[j] == b[j] != '\0';
    assert |a| == |b|;
    assert k[..|a|] == a && k[..|b|] == b && k[|a| + 1..] == c && k[|b| + 1..] == d;
  }

  /** Two facts share a place in the index only when provider, pool and metric are the same. */
  lemma PlacesApart(x: Snapshot, y: Snapshot)
    requires NulFree(x.provider) && NulFree(y.provider) && NulFree(x.pool) && NulFree(y.pool)
    ensures SnapshotKey(x) == SnapshotKey(y) <==> x.provider == y.provider && x.pool == y.pool && x.metric == y.metric
  {
    assert SnapshotKey(x) == x.provider + "\0" + (x.pool + "\0" + x.metric);
    assert SnapshotKey(y) == y.provider + "\0" + (y.pool + "\0" + y.metric);
    if SnapshotKey(x) == SnapshotKey(y) {
      NulPrefix(x.provider, y.provider, x.pool + "\0" + x.metric, y.pool + "\0" + y.metric);
      NulPrefix(x.pool, y.pool, x.metric, y.metric);
    }
  }

  /** A bounded history is the end of the whole one, and all of it while it fits. */
  lemma HistoryIsTheEnd(h: seq<Snapshot>, n: nat)
    ensures |Last(h, n)| == if |h| <= n then |h| else n
    ensures forall i :: 0 <= i < |Last(h, n)| ==> Last(h, n)[i] == h[|h| - |Last(h, n)| + i]
  {
  }

  /** Two hundred facts are kept, the last ones accepted. */
  lemma KeepsTwoHundred(items: map<string, Snapshot>, history: seq<Snapshot>, log: seq<Snapshot>)
    requires Agrees(items, history, log)
    ensures |history| == if |log| <= 200 then |log| else 200
    ensures forall i :: 0 <= i < |history| ==> history[i] == log[|log| - |history| + i]
  {
    HistoryIsTheEnd(log, KEPT);
  }

  /** A load takes for each place the last fact of the list, else the first one of the history;
      facts without a provider are passed over; and the history is the end of the one on file,
      or of the list when there is none. */
  lemma {:induction false} LastOfTheList(xs: seq<Snapshot>, x: Snapshot, items: map<string, Snapshot>)
    ensures Indexed(items, xs + [x]) ==
            if x.provider == "" then Indexed(items, xs) else Indexed(items, xs)[SnapshotKey(x) := x]
    ensures Indexed(items, []) == items
    ensures FilledIn(items, xs + [x]) ==
            if x.provider == "" || SnapshotKey(x) in FilledIn(items, xs) then FilledIn(items, xs)
            else FilledIn(items, xs)[SnapshotKey(x) := x]
    ensures FilledIn(items, []) == items
  {
    assert (xs + [x])[..|xs|] == xs;
  }

  lemma LoadsFrom(f: File)
    ensures f.history.None? ==> ItemsOf(f) == Indexed(map[], f.items) && HistoryOf(f) == Last(f.items, 200)
    ensures f.history.Some? ==>
      ItemsOf(f) == FilledIn(Indexed(map[], f.items), f.history.value) && HistoryOf(f) == Last(f.history.value, 200)
  {
  }
}
