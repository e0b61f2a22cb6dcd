/** Review batches: the store of records (`internal/runtime/review.go`) and the runs that
    claim a batch, ask a model for decisions, and file them (`internal/runtime/reviewer.go`).
    The model's answer is a parameter; a decision carries the instant at which it is filed. */
module Reviews {
  import opened Keys

  datatype Status = Pending | Processing | Reviewed | Failed | Skipped

  datatype Review = Review(
    id: string, recordedAt: Time, status: Option<Status>, batchId: string, attempts: nat,
    reviewerModel: string, reviewedAt: Option<Time>, recommendedModel: string, minimumTier: int,
    overqualified: bool, confidence: real, conclusion: string, error: string)

  datatype Decision = Decision(
    id: string, recommendedModel: string, minimumTier: int, overqualified: bool, confidence: real,
    conclusion: string, skip: bool, at: Time)

  type Items = map<string, Review>

  // ---------------------------------------------------------------- one record

  /** A record without a status is pending. */
  function Normal(x: Review): Review { if x.status.None? then x.(status := Some(Pending)) else x }

  predicate Claimable(x: Review, before: Time) {
    x.recordedAt < before && (x.status == Some(Pending) || x.status == Some(Failed))
  }

  function Claimed(x: Review, batch: string): Review {
    x.(status := Some(Processing), batchId := batch, attempts := x.attempts + 1)
  }

  predicate Overdue(x: Review, now: Time, maxAge: nat) {
    x.status == Some(Processing) && (maxAge == 0 || now > x.recordedAt + maxAge)
  }

  const RECOVERED: string := "processing batch recovered after interruption"
  const UNDECIDED: string := "missing or invalid decision"

  function FailedWith(x: Review, msg: string): Review { x.(status := Some(Failed), error := msg) }

  function Recovered(x: Review, now: Time, maxAge: nat): Review {
    if Overdue(x, now, maxAge) then FailedWith(x, RECOVERED) else x
  }

  function Pruned(items: Items, before: Time): Items {
    map id | id in items && !(items[id].recordedAt < before) :: items[id]
  }

  lemma DropOne(items: Items, id: string)
    requires id in items
    ensures |items - {id}| == |items| - 1
  {
    assert (items - {id}).Keys == items.Keys - {id};
    assert |(items - {id}).Keys| == |items - {id}| && |items.Keys| == |items|;
  }

  predicate Acceptable(d: Decision, available: set<string>) {
    0.0 <= d.confidence <= 1.0 && 0 <= d.minimumTier <= 10
    && (d.recommendedModel == "" || d.recommendedModel in available)
  }

  function Decided(x: Review, d: Decision, model: string): Review {
    x.(reviewedAt := Some(d.at), status := Some(if d.skip then Skipped else Reviewed), reviewerModel := model,
       recommendedModel := d.recommendedModel, minimumTier := d.minimumTier, overqualified := d.overqualified,
       confidence := d.confidence, conclusion := d.conclusion, error := "")
  }

  /** Who decides: the models to choose from, and the reviewing model. */
  datatype Panel = Panel(available: set<string>, model: string)

  /** A record after some decisions, filed in order. */
  function After(x: Review, ds: seq<Decision>, panel: Panel): Review {
    if ds == [] then x
    else
      var d := ds[|ds| - 1];
      var before := After(x, ds[..|ds| - 1], panel);
      if d.id == x.id && Acceptable(d, panel.available) then Decided(before, d, panel.model) else before
  }

  predicate Mentioned(id: string, ds: seq<Decision>) { exists i :: 0 <= i < |ds| && ds[i].id == id }

  /** A record of the batch when the run is over. */
  function Final(x: Review, ds: seq<Decision>, panel: Panel): Review {
    if Mentioned(x.id, ds) then After(x, ds, panel) else FailedWith(x, UNDECIDED)
  }

  function LastValid(id: string, ds: seq<Decision>, available: set<string>): Option<Decision> {
    if ds == [] then None
    else
      var d := ds[|ds| - 1];
      if d.id == id && Acceptable(d, available) then Some(d) else LastValid(id, ds[..|ds| - 1], available)
  }

  /** Decisions overwrite each other: only the last valid one is left. */
  lemma {:induction false} AfterIsLastValid(x: Review, ds: seq<Decision>, panel: Panel)
    ensures
      var last := LastValid(x.id, ds, panel.available);
      After(x, ds, panel) == if last.Some? then Decided(x, last.value, panel.model) else x
  {
    if ds != [] {
      AfterIsLastValid(x, ds[..|ds| - 1], panel);
    }
  }

  lemma {:induction false} LastValidIs(id: string, ds: seq<Decision>, available: set<string>)
    ensures
      var last := LastValid(id, ds, available);
      && (last.Some? ==> last.value in ds && last.value.id == id && Acceptable(last.value, available))
      && (last.None? ==> forall d :: d in ds && d.id == id ==> !Acceptable(d, available))
  {
    if ds != [] {
      LastValidIs(id, ds[..|ds| - 1], available);
      assert ds == ds[..|ds| - 1] + [ds[|ds| - 1]];
    }
  }

  /** What a run leaves behind: a record without a decision has failed; one with a valid
      decision carries the last valid one, reviewed or skipped; one with none but rejected
      decisions is still in processing.  A model recommended by the run is on the list. */
  lemma FinalSays(x: Review, ds: seq<Decision>, panel: Panel)
    requires x.status == Some(Processing)
    ensures
      var y, last := Final(x, ds, panel), LastValid(x.id, ds, panel.available);
      && (y.status == Some(Failed) <==> !Mentioned(x.id, ds))
      && (y.status == Some(Reviewed) <==> last.Some? && !last.value.skip)
      && (y.status == Some(Skipped) <==> last.Some? && last.value.skip)
      && (y.status == Some(Processing) <==> Mentioned(x.id, ds) && last.None?)
      && (last.Some? ==>
            (y.reviewedAt == Some(last.value.at) && y.reviewerModel == panel.model && y.error == ""
             && y.recommendedModel == last.value.recommendedModel && y.minimumTier == last.value.minimumTier
             && y.overqualified == last.value.overqualified && y.confidence == last.value.confidence
             && y.conclusion == last.value.conclusion))
      && (y.status == Some(Failed) ==> y == x.(status := y.status, error := UNDECIDED))
      && (y.status == Some(Processing) ==> y == x)
      && y.id == x.id && y.batchId == x.batchId && y.attempts == x.attempts
      && (y.recommendedModel == x.recommendedModel || y.recommendedModel == ""
          || y.recommendedModel in panel.available)
  {
    AfterIsLastValid(x, ds, panel);
    LastValidIs(x.id, ds, panel.available);
    if !Mentioned(x.id, ds) {
      assert forall d :: d in ds ==> d.id != x.id;
    }
  }

  // ---------------------------------------------------------------- the store

  class Store {
    var items: Items
    var locked: bool

    constructor ()
      ensures items == map[] && !locked
    {
      items, locked := map[], false;
    }

    method Add(x: Review)
      modifies this`items
      ensures items == if x.id == "" then old(items) else old(items)[x.id := Normal(x)]
    {
      if x.id == "" {
        return;
      }
      var y := x;
      if y.status.None? {
        y := y.(status := Some(Pending));
      }
      items := items[x.id := y];
    }

    method Apply(id: string, fn: Review -> Review)
      modifies this`items
      ensures items == if id in old(items) then old(items)[id := fn(old(items)[id])] else old(items)
    {
      if id in items {
        items := items[id := fn(items[id])];
      }
    }

    method RecoverProcessing(now: Time, maxAge: nat) returns (count: nat)
      modifies this`items
      ensures items == map id | id in old(items) :: Recovered(old(items)[id], now, maxAge)
      ensures count == |set id | id in old(items) && Overdue(old(items)[id], now, maxAge)|
    {
      ghost var overdue := set id | id in items && Overdue(items[id], now, maxAge);
      items, count := RecoverAll(items, now, maxAge, overdue);
    }

    /** `Prune` (`internal/runtime/retention.go`): old records go, whatever is being done to them. */
    method Prune(before: Time) returns (count: nat)
      modifies this`items
      ensures items == Pruned(old(items), before)
      ensures count == |old(items)| - |items|
    {
      ghost var start := items;
      var todo := items.Keys;
      count := 0;
      while todo != {}
        invariant todo <= start.Keys && todo <= items.Keys && items.Keys <= start.Keys
        invariant forall id :: id in items ==> items[id] == start[id]
        invariant forall id :: id in start && id !in todo ==> (id in items <==> !(start[id].recordedAt < before))
        invariant count == |start| - |items|
      {
        var id :| id in todo;
        todo := todo - {id};
        if items[id].recordedAt < before {
          DropOne(items, id);
          items := items - {id};
          count := count + 1;
        }
      }
      assert items == Pruned(start, before);
    }

    /** The records are visited in an arbitrary order, up to the limit; a claim while another
        is still being written gets nothing. */
    method Claim(before: Time, batch: string, limit: nat) returns (out: seq<Review>)
      requires forall id :: id in items ==> items[id].id == id
      modifies this
      ensures locked && (old(locked) ==> out == [])
      ensures |out| <= limit
      ensures IsClaim(old(items), items, before, batch, out)
      ensures !old(locked) && |out| < limit ==>
        forall id :: id in old(items) && Claimable(old(items)[id], before) ==> id in Ids(out)
    {
      if locked {
        assert Marked(items, {}, batch) == items;
        return [];
      }
      locked := true;
      items, out := Pick(items, before, batch, limit);
    }
  }

  function Ids(xs: seq<Review>): set<string> { set x | x in xs :: x.id }

  predicate DistinctIds(xs: seq<Review>) { forall i, j :: 0 <= i < j < |xs| ==> xs[i].id != xs[j].id }

  function Marked(start: Items, ids: set<string>, batch: string): Items {
    map id | id in start :: if id in ids then Claimed(start[id], batch) else start[id]
  }

  /** `out` are records that were claimable and now are claimed; nothing else has changed. */
  predicate IsClaim(start: Items, items: Items, before: Time, batch: string, out: seq<Review>) {
    && DistinctIds(out) && items == Marked(start, Ids(out), batch)
    && forall x :: x in out ==> x.id in start && Claimable(start[x.id], before) && x == Claimed(start[x.id], batch)
  }

  lemma IdsGrow(out: seq<Review>, y: Review)
    ensures Ids(out + [y]) == Ids(out) + {y.id}
    ensures DistinctIds(out) && y.id !in Ids(out) ==> DistinctIds(out + [y])
  {
    forall k ensures k in Ids(out + [y]) <==> k in Ids(out) + {y.id} {
      assert forall x :: x in out + [y] <==> x in out || x == y;
    }
    forall i | 0 <= i < |out| ensures out[i].id in Ids(out) {
      assert out[i] in out;
    }
  }

  lemma MarkOne(start: Items, ids: set<string>, batch: string, id: string)
    requires id in start
    ensures Marked(start, ids + {id}, batch) == Marked(start, ids, batch)[id := Claimed(start[id], batch)]
  {
  }

  /** The store when the records in `todo` have still to be looked at. */
  predicate RecoveredBut(before: Items, items: Items, todo: set<string>, now: Time, maxAge: nat) {
    items.Keys == before.Keys
    && forall id :: id in before ==> items[id] == if id in todo then before[id] else Recovered(before[id], now, maxAge)
  }

  lemma RecoverOne(before: Items, items: Items, todo: set<string>, now: Time, maxAge: nat, id: string)
    requires RecoveredBut(before, items, todo, now, maxAge) && id in todo && id in before
    ensures RecoveredBut(before, items[id := Recovered(before[id], now, maxAge)], todo - {id}, now, maxAge)
    ensures !Overdue(before[id], now, maxAge) ==> items[id := Recovered(before[id], now, maxAge)] == items
  {
  }

  /** One turn of the loop of `RecoverProcessing`. */
  method RecoverTurn(ghost before: Items, start: Items, ghost todo: set<string>, now: Time, maxAge: nat, id: string)
    returns (items: Items, overdue: bool)
    requires RecoveredBut(before, start, todo, now, maxAge) && id in todo && id in before
    ensures RecoveredBut(before, items, todo - {id}, now, maxAge)
    ensures overdue <==> Overdue(before[id], now, maxAge)
  {
    RecoverOne(before, start, todo, now, maxAge, id);
    items := start;
    var x := items[id];
    overdue := x.status == Some(Processing) && (maxAge == 0 || now > x.recordedAt + maxAge);
    if overdue {
      items := items[id := x.(status := Some(Failed), error := RECOVERED)];
    }
  }

  /** The loop of `RecoverProcessing`, in an arbitrary order. */
  method RecoverLoop(before: Items, now: Time, maxAge: nat, ghost overdue: set<string>)
    returns (items: Items, count: nat)
    requires forall id :: id in overdue <==> id in before && Overdue(before[id], now, maxAge)
    ensures RecoveredBut(before, items, {}, now, maxAge) && count == |overdue|
  {
    items, count := before, 0;
    var todo := before.Keys;
    assert overdue - todo == {};
    while todo != {}
      invariant todo <= before.Keys && RecoveredBut(before, items, todo, now, maxAge)
      invariant count == |overdue - todo|
    {
      var id :| id in todo;
      OneMoreDone(overdue, todo, id);
      var stuck;
      items, stuck := RecoverTurn(before, items, todo, now, maxAge, id);
      todo := todo - {id};
      if stuck {
        count := count + 1;
      }
    }
    assert overdue - {} == overdue;
  }

  method RecoverAll(before: Items, now: Time, maxAge: nat, ghost overdue: set<string>)
    returns (items: Items, count: nat)
    requires forall id :: id in overdue <==> id in before && Overdue(before[id], now, maxAge)
    ensures items == map id | id in before :: Recovered(before[id], now, maxAge)
    ensures count == |overdue|
  {
    items, count := RecoverLoop(before, now, maxAge, overdue);
  }

  method Pick(start: Items, before: Time, batch: string, limit: nat) returns (items: Items, out: seq<Review>)
    requires forall id :: id in start ==> start[id].id == id
    ensures IsClaim(start, items, before, batch, out) && |out| <= limit
    ensures |out| < limit ==> forall id :: id in start && Claimable(start[id], before) ==> id in Ids(out)
  {
    items, out := start, [];
    assert Marked(start, {}, batch) == start;
    var todo := start.Keys;
    while todo != {} && |out| < limit
      invariant todo <= start.Keys && |out| <= limit
      invariant IsClaim(start, items, before, batch, out)
      invariant Ids(out) !! todo
      invariant forall id :: id in start && id !in todo && Claimable(start[id], before) ==> id in Ids(out)
    {
      var id :| id in todo;
      todo := todo - {id};
      var x := items[id];
      if Claimable(x, before) {
        var y := x.(status := Some(Processing), batchId := batch, attempts := x.attempts + 1);
        assert y == Claimed(start[id], batch);
        IdsGrow(out, y);
        MarkOne(start, Ids(out), batch, id);
        items := items[id := y];
        out := out + [y];
      }
    }
  }

  // ---------------------------------------------------------------- one run, undisturbed

  /** What the reviewing model gives back: nothing, something that is not a list of
      decisions, or decisions. */
  datatype Answer = Unavailable(error: string) | Malformed | Answered(ds: seq<Decision>)

  const NOT_JSON: string := "reviewer output is not strict json"

  function Filed(items: Items, ids: set<string>, ds: seq<Decision>, panel: Panel): Items {
    map id | id in items :: if id in ids then After(items[id], ds, panel) else items[id]
  }

  function Swept(items: Items, ids: set<string>, ds: seq<Decision>): Items {
    map id | id in items :: if id in ids && !Mentioned(id, ds) then FailedWith(items[id], UNDECIDED) else items[id]
  }

  function MarkedFailed(items: Items, ids: set<string>, msg: string): Items {
    map id | id in items :: if id in ids then FailedWith(items[id], msg) else items[id]
  }

  function Settled(items: Items, ids: set<string>, ds: seq<Decision>, panel: Panel): Items {
    map id | id in items :: if id in ids then Final(items[id], ds, panel) else items[id]
  }

  function Effect(items: Items, ids: set<string>, answer: Answer, panel: Panel): Items {
    match answer
    case Unavailable(e) => MarkedFailed(items, ids, e)
    case Malformed => MarkedFailed(items, ids, NOT_JSON)
    case Answered(ds) => Settled(items, ids, ds, panel)
  }

  predicate FiledById(items: Items) { forall id :: id in items ==> items[id].id == id }

  lemma FileOne(items: Items, ids: set<string>, ds: seq<Decision>, d: Decision, panel: Panel)
    requires FiledById(items) && ids <= items.Keys
    ensures
      var filed := Filed(items, ids, ds, panel);
      Filed(items, ids, ds + [d], panel) ==
      if d.id in ids && Acceptable(d, panel.available) then filed[d.id := Decided(filed[d.id], d, panel.model)] else filed
  {
    assert (ds + [d])[..|ds|] == ds;
  }

  lemma SweepOne(items: Items, ids: set<string>, ds: seq<Decision>, id: string)
    requires id in items && id !in ids
    ensures
      Swept(items, ids + {id}, ds) ==
      if Mentioned(id, ds) then Swept(items, ids, ds)
      else Swept(items, ids, ds)[id := FailedWith(items[id], UNDECIDED)]
  {
  }

  lemma {:induction false} AfterKeepsId(x: Review, ds: seq<Decision>, panel: Panel)
    ensures After(x, ds, panel).id == x.id
    ensures !Mentioned(x.id, ds) ==> After(x, ds, panel) == x
  {
    if ds != [] {
      var n := |ds| - 1;
      AfterKeepsId(x, ds[..n], panel);
      if Mentioned(x.id, ds[..n]) {
        var i :| 0 <= i < n && ds[..n][i].id == x.id;
        assert ds[i].id == x.id;
      }
    }
  }

  lemma SweptIsSettled(items: Items, ids: set<string>, ds: seq<Decision>, panel: Panel)
    requires FiledById(items)
    ensures Swept(Filed(items, ids, ds, panel), ids, ds) == Settled(items, ids, ds, panel)
  {
    forall id | id in items && id in ids && !Mentioned(id, ds) ensures After(items[id], ds, panel) == items[id] {
      AfterKeepsId(items[id], ds, panel);
    }
  }

  /** The decisions that are filed, each counted once. */
  function Useful(ds: seq<Decision>, ids: set<string>, available: set<string>): seq<Decision> {
    if ds == [] then []
    else
      var d := ds[|ds| - 1];
      Useful(ds[..|ds| - 1], ids, available) + (if d.id in ids && Acceptable(d, available) then [d] else [])
  }

  lemma UsefulOneMore(ds: seq<Decision>, d: Decision, ids: set<string>, available: set<string>)
    ensures Useful(ds + [d], ids, available) ==
            Useful(ds, ids, available) + (if d.id in ids && Acceptable(d, available) then [d] else [])
  {
    assert (ds + [d])[..|ds|] == ds;
  }

  method HasDecision(id: string, ds: seq<Decision>) returns (found: bool)
    ensures found <==> Mentioned(id, ds)
  {
    found := false;
    for i := 0 to |ds|
      invariant !found && forall j :: 0 <= j < i ==> ds[j].id != id
    {
      if ds[i].id == id {
        return true;
      }
    }
  }

  /** The first result loop: acceptable decisions about the batch are filed in order. */
  method FileDecisions(store: Store, batch: seq<Review>, ds: seq<Decision>, panel: Panel) returns (count: nat)
    requires FiledById(store.items) && Ids(batch) <= store.items.Keys
    modifies store`items
    ensures store.items == Filed(old(store.items), Ids(batch), ds, panel)
    ensures count == |Useful(ds, Ids(batch), panel.available)|
  {
    var valid := Ids(batch);
    count := 0;
    for i := 0 to |ds|
      invariant store.items == Filed(old(store.items), Ids(batch), ds[..i], panel)
      invariant count == |Useful(ds[..i], valid, panel.available)|
    {
      UsefulOneMore(ds[..i], ds[i], valid, panel.available);
      assert ds[..i + 1] == ds[..i] + [ds[i]];
      FileOne(old(store.items), Ids(batch), ds[..i], ds[i], panel);
      var d := ds[i];
      if d.id !in valid || d.confidence < 0.0 || d.confidence > 1.0 || d.minimumTier < 0 || d.minimumTier > 10 {
        continue;
      }
      if d.recommendedModel != "" && d.recommendedModel !in panel.available {
        continue;
      }
      store.Apply(d.id, (x: Review) =>
        var y := x.(reviewedAt := Some(d.at), status := Some(Reviewed), reviewerModel := panel.model,
                    recommendedModel := d.recommendedModel, minimumTier := d.minimumTier,
                    overqualified := d.overqualified, confidence := d.confidence, conclusion := d.conclusion,
                    error := "");
        if d.skip then y.(status := Some(Skipped)) else y);
      count := count + 1;
    }
    assert ds[..|ds|] == ds;
  }

  /** The second: records of the batch that no decision mentions have failed. */
  method SweepUndecided(store: Store, batch: seq<Review>, ds: seq<Decision>)
    requires DistinctIds(batch) && Ids(batch) <= store.items.Keys
    modifies store`items
    ensures store.items == Swept(old(store.items), Ids(batch), ds)
  {
    assert Swept(store.items, {}, ds) == store.items;
    for i := 0 to |batch|
      invariant store.items == Swept(old(store.items), Ids(batch[..i]), ds)
    {
      NextId(batch, i);
      SweepOne(old(store.items), Ids(batch[..i]), ds, batch[i].id);
      var found := HasDecision(batch[i].id, ds);
      if !found {
        store.Apply(batch[i].id, (x: Review) => x.(status := Some(Failed), error := UNDECIDED));
      }
    }
    assert batch[..|batch|] == batch;
  }

  lemma NextId(batch: seq<Review>, i: nat)
    requires DistinctIds(batch) && i < |batch|
    ensures Ids(batch[..i + 1]) == Ids(batch[..i]) + {batch[i].id}
    ensures batch[i].id !in Ids(batch[..i]) && batch[i].id in Ids(batch)
  {
    assert batch[..i + 1] == batch[..i] + [batch[i]];
    IdsGrow(batch[..i], batch[i]);
    assert batch[i] in batch;
    assert forall x :: x in batch[..i] ==> exists j :: 0 <= j < i && batch[j] == x;
  }

  method MarkFailed(store: Store, batch: seq<Review>, msg: string)
    requires DistinctIds(batch) && Ids(batch) <= store.items.Keys
    modifies store`items
    ensures store.items == MarkedFailed(old(store.items), Ids(batch), msg)
  {
    assert MarkedFailed(store.items, {}, msg) == store.items;
    for i := 0 to |batch|
      invariant store.items == MarkedFailed(old(store.items), Ids(batch[..i]), msg)
    {
      NextId(batch, i);
      store.Apply(batch[i].id, (x: Review) => x.(status := Some(Failed), error := msg));
    }
    assert batch[..|batch|] == batch;
  }

  /** `Run`, on a store that nobody else touches while it asks: the records it claims end as
      `Final` says (or all failed, when there is no answer), all others are as they were. */
  method RunReviewer(store: Store, before: Time, batchId: string, limit: int, answer: seq<Review> -> Answer, panel: Panel)
    returns (batch: seq<Review>, reviewed: nat)
    requires FiledById(store.items)
    modifies store
    ensures exists claimed ::
      && IsClaim(old(store.items), claimed, before, batchId, batch)
      && store.items == if batch == [] then claimed else Effect(claimed, Ids(batch), answer(batch), panel)
    ensures |batch| <= if limit < 1 || limit > 100 then 20 else limit
    ensures
      var a := answer(batch);
      reviewed == if batch == [] || !a.Answered? then 0 else |Useful(a.ds, Ids(batch), panel.available)|
  {
    var bound := limit;
    if limit < 1 || limit > 100 {
      bound := 20;
    }
    reviewed := 0;
    batch := store.Claim(before, batchId, bound);
    ghost var claimed := store.items;
    if |batch| == 0 {
      return;
    }
    match answer(batch)
    case Unavailable(e) => MarkFailed(store, batch, e);
    case Malformed => MarkFailed(store, batch, NOT_JSON);
    case Answered(ds) =>
      SweptIsSettled(claimed, Ids(batch), ds, panel);
      reviewed := FileDecisions(store, batch, ds, panel);
      SweepUndecided(store, batch, ds);
  }

  // ---------------------------------------------------------------- in plain values

  /** A decision that is filed: a confidence from zero to one, a tier from zero to ten, and a
      model of the list or none. */
  predicate Sound(d: Decision, available: set<string>) {
    && !(d.confidence < 0.0) && !(1.0 < d.confidence) && !(d.minimumTier < 0) && !(10 < d.minimumTier)
    && (|d.recommendedModel| > 0 ==> d.recommendedModel in available)
  }

  /** What the last decision about a record does to it, after any others: a sound one writes all
      its fields, and skips the record or reviews it; any other leaves no trace. */
  lemma LastDecisionWrites(x: Review, ds: seq<Decision>, d: Decision, panel: Panel)
    ensures
      var before, after := After(x, ds, panel), After(x, ds + [d], panel);
      && (d.id == x.id && Sound(d, panel.available) ==>
            && after == before.(reviewedAt := Some(d.at), status := after.status, reviewerModel := panel.model,
                                recommendedModel := d.recommendedModel, minimumTier := d.minimumTier,
                                overqualified := d.overqualified, confidence := d.confidence,
                                conclusion := d.conclusion, error := "")
            && after.status == (if d.skip then Some(Skipped) else Some(Reviewed)))
      && (d.id != x.id || !Sound(d, panel.available) ==> after == before)
    ensures After(x, [], panel) == x
  {
    assert (ds + [d])[..|ds|] == ds;
  }

  /** The number of reviews a run reports is that of its sound decisions about its batch. */
  lemma UsefulIs(ds: seq<Decision>, d: Decision, ids: set<string>, available: set<string>)
    ensures |Useful(ds + [d], ids, available)| ==
            |Useful(ds, ids, available)| + (if d.id in ids && Sound(d, available) then 1 else 0)
    ensures Useful([], ids, available) == []
  {
    UsefulOneMore(ds, d, ids, available);
    SoundIff(d, available);
  }

  lemma SoundIff(d: Decision, available: set<string>)
    ensures Acceptable(d, available) <==> Sound(d, available)
  {
  }

  /** How a run ends for a record of its batch without decisions: failed, with the error of the
      call, or that the answer was not JSON, or that there was no decision. */
  lemma WithoutDecision(items: Items, ids: set<string>, panel: Panel, e: string, ds: seq<Decision>, id: string)
    requires id in items && id in ids && items[id].id == id
    requires forall d :: d in ds ==> d.id != id
    ensures
      var x := items[id];
      && Effect(items, ids, Unavailable(e), panel)[id] == x.(status := Some(Failed), error := e)
      && Effect(items, ids, Malformed, panel)[id]
           == x.(status := Some(Failed), error := "reviewer output is not strict json")
      && Effect(items, ids, Answered(ds), panel)[id]
           == x.(status := Some(Failed), error := "missing or invalid decision")
  {
  }

  /** Nothing outside the batch changes, and nothing is added or removed. */
  lemma OutsideIsLeft(items: Items, ids: set<string>, answer: Answer, panel: Panel, id: string)
    ensures
      var after := Effect(items, ids, answer, panel);
      (id in after <==> id in items) && (id in items && id !in ids ==> after[id] == items[id])
  {
  }

  /** What is claimed: a record from before the instant that is pending or has failed, and it
      becomes processing under the batch with one attempt more. */
  lemma ClaimWrites(start: Items, items: Items, before: Time, batch: string, out: seq<Review>, id: string)
    requires IsClaim(start, items, before, batch, out) && id in start && forall i :: i in start ==> start[i].id == i
    ensures
      var x := start[id];
      && id in items
      && (items[id] in out && items[id] != x ==>
            && x.recordedAt < before && x.status in {Some(Pending), Some(Failed)}
            && items[id] == x.(status := Some(Processing), batchId := batch, attempts := x.attempts + 1))
      && (id !in Ids(out) ==> items[id] == x)
  {
  }

  lemma ClaimableIs(x: Review, before: Time)
    ensures Claimable(x, before) <==> x.recordedAt < before && x.status in {Some(Pending), Some(Failed)}
  {
  }

  /** A recovery fails what has been in processing for longer than the age given, everything in
      processing for an age of zero; retention drops what was recorded before the instant; and a
      record is filed as pending when it has no status. */
  lemma UpkeepWrites(x: Review, now: Time, maxAge: nat, items: Items, before: Time, id: string)
    ensures Recovered(x, now, maxAge) ==
      if x.status == Some(Processing) && (maxAge == 0 || now - x.recordedAt > maxAge)
      then x.(status := Some(Failed), error := "processing batch recovered after interruption") else x
    ensures id in Pruned(items, before) <==> id in items && items[id].recordedAt >= before
    ensures id in Pruned(items, before) ==> Pruned(items, before)[id] == items[id]
    ensures Normal(x) == x.(status := if x.status == None then Some(Pending) else x.status)
  {
  }
}
