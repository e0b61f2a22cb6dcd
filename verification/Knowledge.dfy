/** Routing knowledge and its promotion (`internal/runtime/knowledge.go`). */
module Knowledge {
  import opened Keys

  datatype Status = Proposed | Validated | Trusted | Rejected | Expired

  datatype Entry = Entry(id: string, success: bool, cause: string, note: string, from: Status, to: Status)

  datatype Item = Item(
    id: string, signature: string, recommendedModel: string, confidence: real,
    samples: int, validated: int, successful: int, failed: int,
    status: Status, failureCause: string,
    sourceReviewIds: seq<string>, validationIds: seq<string>, history: seq<Entry>,
    expiresAt: Option<Time>, humanNote: string)

  type Items = map<string, Item>

  const THIRTY_DAYS: nat := 720 * HOUR

  // ---------------------------------------------------------------- one record

  /** What `RecordValidation` makes of an accepted validation. */
  function Judged(k: Item, vid: string, success: bool, cause: string, note: string, now: Time): Item {
    var n := k.validated + 1;
    var good := k.successful + (if success then 1 else 0);
    var first := if n >= 3 && good * 100 >= n * 80 && k.status == Proposed then Validated else k.status;
    var second := if n >= 10 && good * 100 >= n * 90 && first == Validated then Trusted else first;
    k.(validationIds := k.validationIds + [vid],
       validated := n, successful := good,
       failed := k.failed + (if success then 0 else 1),
       failureCause := if success then k.failureCause else cause,
       status := second,
       humanNote := if note != "" then note else k.humanNote,
       expiresAt := if k.expiresAt.None? then Some(now + THIRTY_DAYS) else k.expiresAt,
       history := k.history + [Entry(vid, success, cause, note, k.status, second)])
  }

  predicate Lapsed(k: Item, now: Time) {
    k.expiresAt.Some? && k.expiresAt.value < now && (k.status == Trusted || k.status == Validated)
  }

  function Aged(k: Item, now: Time): Item { if Lapsed(k, now) then k.(status := Expired) else k }

  function CountNew(ids: seq<string>, known: seq<string>): nat {
    if ids == [] then 0
    else if ids[0] in known then CountNew(ids[1..], known)
    else 1 + CountNew(ids[1..], known + [ids[0]])
  }

  /** What `Upsert` files over an existing record. */
  function Merged(present: Item, x: Item): Item {
    var samples := present.samples + CountNew(x.sourceReviewIds, present.sourceReviewIds);
    x.(samples := if samples == 0 then 1 else samples,
       validated := present.validated, successful := present.successful, failed := present.failed,
       validationIds := present.validationIds, history := present.history, status := present.status,
       failureCause := present.failureCause, humanNote := present.humanNote, expiresAt := present.expiresAt)
  }

  // ---------------------------------------------------------------- the store as events

  datatype Event =
    | Upsert(x: Item)
    | Validate(id: string, vid: string, success: bool, cause: string, note: string, now: Time)
    | Decide(id: string, to: Status, note: string, cause: string, now: Time, decisionId: string)
    | Restore(id: string, to: Status, note: string, now: Time, restoreId: string)
    | Expire(now: Time)

  function Apply(items: Items, e: Event): Items {
    match e
    case Upsert(x) =>
      if x.id == "" then items
      else items[x.id := if x.id in items then Merged(items[x.id], x) else x]
    case Validate(id, vid, success, cause, note, now) =>
      if vid == "" || id !in items || vid in items[id].validationIds then items
      else items[id := Judged(items[id], vid, success, cause, note, now)]
    case Decide(id, to, note, cause, now, did) =>
      if id !in items || items[id].status == to then items
      else
        var k := items[id];
        items[id := k.(status := to, humanNote := note, failureCause := cause,
                       history := k.history + [Entry(did, to != Rejected && to != Expired, cause, note, k.status, to)])]
    case Restore(id, to, note, now, rid) =>
      if !(to == Validated || to == Trusted) || id !in items
         || !(items[id].status == Expired || items[id].status == Rejected) then items
      else
        var k := items[id];
        items[id := k.(status := to, humanNote := note, expiresAt := Some(now + THIRTY_DAYS),
                       history := k.history + [Entry(rid, true, "", note, k.status, to)])]
    case Expire(now) =>
      AgedAll(items, now)
  }

  function Run(items: Items, es: seq<Event>): Items
    decreases |es|
  {
    if es == [] then items else Run(Apply(items, es[0]), es[1..])
  }

  // ---------------------------------------------------------------- the class

  class Store {
    var items: Items

    constructor ()
      ensures items == map[]
    {
      items := map[];
    }

    method Upsert(x: Item)
      modifies this
      ensures items == Apply(old(items), Event.Upsert(x))
    {
      if x.id == "" {
        return;
      }
      var y := x;
      if x.id in items {
        var o := items[x.id];
        var newSources, known := 0, o.sourceReviewIds;
        for i := 0 to |x.sourceReviewIds|
          invariant newSources + CountNew(x.sourceReviewIds[i..], known)
                 == CountNew(x.sourceReviewIds, o.sourceReviewIds)
        {
          var id := x.sourceReviewIds[i];
          assert x.sourceReviewIds[i..][1..] == x.sourceReviewIds[i + 1..];
          if id !in known {
            known := known + [id];
            newSources := newSources + 1;
          }
        }
        y := y.(samples := o.samples + newSources);
        if y.samples == 0 {
          y := y.(samples := 1);
        }
        y := y.(validated := o.validated, successful := o.successful, failed := o.failed);
        y := y.(validationIds := o.validationIds, history := o.history, status := o.status);
        y := y.(failureCause := o.failureCause, humanNote := o.humanNote, expiresAt := o.expiresAt);
      }
      items := items[x.id := y];
    }

    method RecordValidation(id: string, vid: string, success: bool, cause: string, note: string, now: Time)
      returns (ok: bool)
      modifies this
      ensures items == Apply(old(items), Validate(id, vid, success, cause, note, now))
      ensures ok <==> vid != "" && id in old(items) && vid !in old(items)[id].validationIds
    {
      if vid == "" || id !in items {
        return false;
      }
      var k := items[id];
      for i := 0 to |k.validationIds|
        invariant vid !in k.validationIds[..i]
      {
        if k.validationIds[i] == vid {
          return false;
        }
      }
      var before := k.status;
      k := k.(validationIds := k.validationIds + [vid], validated := k.validated + 1);
      if success {
        k := k.(successful := k.successful + 1);
      } else {
        k := k.(failed := k.failed + 1, failureCause := cause);
      }
      if k.validated >= 3 && k.successful * 100 >= k.validated * 80 && k.status == Proposed {
        k := k.(status := Validated);
      }
      if k.validated >= 10 && k.successful * 100 >= k.validated * 90 && k.status == Validated {
        k := k.(status := Trusted);
      }
      if note != "" {
        k := k.(humanNote := note);
      }
      if k.expiresAt.None? {
        k := k.(expiresAt := Some(now + THIRTY_DAYS));
      }
      k := k.(history := k.history + [Entry(vid, success, cause, note, before, k.status)]);
      items := items[id := k];
      ok := true;
    }

    method ChangeStatus(id: string, to: Status, note: string, cause: string, now: Time, decisionId: string)
      returns (ok: bool)
      modifies this
      ensures items == Apply(old(items), Decide(id, to, note, cause, now, decisionId))
      ensures ok <==> id in old(items) && old(items)[id].status != to
    {
      if id !in items || items[id].status == to {
        return false;
      }
      var k := items[id];
      var before := k.status;
      k := k.(status := to, humanNote := note, failureCause := cause);
      var good := to != Rejected && to != Expired;
      k := k.(history := k.history + [Entry(decisionId, good, cause, note, before, to)]);
      items := items[id := k];
      ok := true;
    }

    method RestoreItem(id: string, to: Status, note: string, now: Time, restoreId: string) returns (ok: bool)
      modifies this
      ensures items == Apply(old(items), Restore(id, to, note, now, restoreId))
      ensures ok <==> ((to == Validated || to == Trusted) && id in old(items)
                       && (old(items)[id].status == Expired || old(items)[id].status == Rejected))
    {
      if to != Validated && to != Trusted {
        return false;
      }
      if id !in items || (items[id].status != Expired && items[id].status != Rejected) {
        return false;
      }
      var k := items[id];
      var before := k.status;
      k := k.(status := to, humanNote := note, expiresAt := Some(now + THIRTY_DAYS));
      k := k.(history := k.history + [Entry(restoreId, true, "", note, before, to)]);
      items := items[id := k];
      ok := true;
    }

    method ExpireAll(now: Time) returns (n: nat)
      modifies this
      ensures items == Apply(old(items), Event.Expire(now))
      ensures n == |set id | id in old(items) && Lapsed(old(items)[id], now)|
    {
      items, n := ExpireIn(items, now);
    }
  }

  function AgedAll(items: Items, now: Time): Items { map id | id in items :: Aged(items[id], now) }

  function LapsedIn(items: Items, now: Time): set<string> { set id | id in items && Lapsed(items[id], now) }

  /** The store when the records in `todo` have still to be looked at. */
  predicate AgedBut(before: Items, items: Items, todo: set<string>, now: Time) {
    items.Keys == before.Keys
    && forall id :: id in before ==> items[id] == if id in todo then before[id] else Aged(before[id], now)
  }

  lemma AgeOne(before: Items, items: Items, todo: set<string>, now: Time, id: string)
    requires AgedBut(before, items, todo, now) && id in todo && id in before
    ensures AgedBut(before, items[id := Aged(before[id], now)], todo - {id}, now)
    ensures !Lapsed(before[id], now) ==> items[id := Aged(before[id], now)] == items
  {
  }

  method ExpireIn(before: Items, now: Time) returns (items: Items, n: nat)
    ensures items == AgedAll(before, now) && n == |LapsedIn(before, now)|
  {
    items, n := ExpireLoop(before, now, LapsedIn(before, now));
    assert items == AgedAll(before, now);
  }

  /** The loop of `Expire`, in an arbitrary order. */
  method ExpireLoop(before: Items, now: Time, ghost lapsed: set<string>) returns (items: Items, n: nat)
    requires lapsed <= before.Keys && forall id :: id in before ==> (id in lapsed <==> Lapsed(before[id], now))
    ensures AgedBut(before, items, {}, now) && n == |lapsed|
  {
    items, n := before, 0;
    var todo := before.Keys;
    assert lapsed - todo == {};
    while todo != {}
      invariant todo <= before.Keys && AgedBut(before, items, todo, now)
      invariant n == |lapsed - todo|
    {
      var id :| id in todo;
      OneMoreDone(lapsed, todo, id);
      var expired;
      items, expired := ExpireTurn(before, items, todo, now, id);
      todo := todo - {id};
      if expired {
        n := n + 1;
      }
    }
    assert lapsed - {} == lapsed;
  }

  /** One turn of the loop of `Expire`. */
  method ExpireTurn(ghost before: Items, start: Items, ghost todo: set<string>, now: Time, id: string)
    returns (items: Items, lapsed: bool)
    requires AgedBut(before, start, todo, now) && id in todo && id in before
    ensures AgedBut(before, items, todo - {id}, now)
    ensures lapsed <==> Lapsed(before[id], now)
  {
    AgeOne(before, start, todo, now, id);
    items := start;
    var k := items[id];
    lapsed := k.expiresAt.Some? && k.expiresAt.value < now && (k.status == Trusted || k.status == Validated);
    if lapsed {
      items := items[id := k.(status := Expired)];
    }
  }

  // ---------------------------------------------------------------- counters and history are one log

  /** The only upserts the program makes: a fresh proposal from one reviewed record. */
  function Proposal(signature: string, model: string, confidence: real, reviewId: string): Item {
    Item(signature + "|" + model, signature, model, confidence, 1, 0, 0, 0, Proposed, "", [reviewId], [], [], None, "")
  }

  predicate FromReviews(e: Event) {
    e.Upsert? ==>
      (|e.x.sourceReviewIds| == 1 && 0.0 < e.x.confidence <= 1.0
       && e.x == Proposal(e.x.signature, e.x.recommendedModel, e.x.confidence, e.x.sourceReviewIds[0]))
  }

  predicate Follows(to: Status, from: Status) {
    from == to || (from == Expired && (to == Trusted || to == Validated))
  }

  predicate Chained(h: seq<Entry>, status: Status) {
    (forall i :: 0 <= i < |h| - 1 ==> Follows(h[i].to, h[i + 1].from))
    && (h != [] ==> h[0].from == Proposed && Follows(h[|h| - 1].to, status))
    && (h == [] ==> status == Proposed)
  }

  predicate Distinct(ids: seq<string>) {
    forall i, j :: 0 <= i < j < |ids| ==> ids[i] != ids[j]
  }

  predicate OneLog(k: Item) {
    k.validated == k.successful + k.failed == |k.validationIds|
    && 0 <= k.successful && 0 <= k.failed
    && Distinct(k.validationIds)
    && Chained(k.history, k.status)
    && |k.validationIds| <= |k.history|
  }

  ghost predicate AllOneLog(items: Items) { forall id :: id in items ==> OneLog(items[id]) }

  /** Every record is filed under its signature and recommended model. */
  predicate Labelled(id: string, k: Item) {
    k.id == id == k.signature + "|" + k.recommendedModel && 0.0 < k.confidence <= 1.0
  }

  ghost predicate AllLabelled(items: Items) { forall id :: id in items ==> Labelled(id, items[id]) }

  lemma ChainExtend(h: seq<Entry>, status: Status, e: Entry)
    requires Chained(h, status) && e.from == status
    ensures Chained(h + [e], e.to)
  {
    var g := h + [e];
    assert forall i :: 0 <= i < |h| ==> g[i] == h[i];
  }

  lemma JudgedKeepsOneLog(k: Item, vid: string, success: bool, cause: string, note: string, now: Time)
    requires OneLog(k) && vid !in k.validationIds
    ensures OneLog(Judged(k, vid, success, cause, note, now))
  {
    var j := Judged(k, vid, success, cause, note, now);
    ChainExtend(k.history, k.status, j.history[|k.history|]);
  }

  lemma DecidedKeepsOneLog(k: Item, next: Item, e: Entry)
    requires OneLog(k) && e.from == k.status && next.status == e.to && next.history == k.history + [e]
    requires next.validated == k.validated && next.successful == k.successful && next.failed == k.failed
    requires next.validationIds == k.validationIds
    ensures OneLog(next)
  {
    ChainExtend(k.history, k.status, e);
  }

  lemma FiledKeepsOneLog(items: Items, id: string, k: Item)
    requires AllOneLog(items) && OneLog(k)
    ensures AllOneLog(items[id := k])
  {
  }

  lemma UpsertKeepsOneLog(items: Items, x: Item)
    requires AllOneLog(items) && FromReviews(Upsert(x))
    ensures AllOneLog(Apply(items, Upsert(x)))
  {
    assert x.id in items ==> OneLog(Merged(items[x.id], x));
    FiledKeepsOneLog(items, x.id, if x.id in items then Merged(items[x.id], x) else x);
  }

  lemma StepKeepsOneLog(items: Items, e: Event)
    requires AllOneLog(items) && FromReviews(e)
    ensures AllOneLog(Apply(items, e))
  {
    match e
    case Upsert(x) => UpsertKeepsOneLog(items, x);
    case Validate(id, vid, success, cause, note, now) =>
      if Apply(items, e) != items {
        JudgedKeepsOneLog(items[id], vid, success, cause, note, now);
        FiledKeepsOneLog(items, id, Judged(items[id], vid, success, cause, note, now));
      }
    case Decide(id, to, note, cause, now, did) =>
      if id in items && items[id].status != to {
        DecidedKeepsOneLog(items[id], Apply(items, e)[id],
                           Entry(did, to != Rejected && to != Expired, cause, note, items[id].status, to));
        FiledKeepsOneLog(items, id, Apply(items, e)[id]);
      }
    case Restore(id, to, note, now, rid) =>
      if id in items && Apply(items, e) != items {
        DecidedKeepsOneLog(items[id], Apply(items, e)[id], Entry(rid, true, "", note, items[id].status, to));
        FiledKeepsOneLog(items, id, Apply(items, e)[id]);
      }
    case Expire(now) =>
  }

  lemma {:induction false} RunKeepsOneLog(items: Items, es: seq<Event>)
    requires AllOneLog(items) && forall e :: e in es ==> FromReviews(e)
    ensures AllOneLog(Run(items, es))
    decreases |es|
  {
    if es != [] {
      assert FromReviews(es[0]);
      StepKeepsOneLog(items, es[0]);
      RunKeepsOneLog(Apply(items, es[0]), es[1..]);
    }
  }

  lemma {:induction false} RunKeepsLabels(items: Items, es: seq<Event>)
    requires AllLabelled(items) && forall e :: e in es ==> FromReviews(e)
    ensures AllLabelled(Run(items, es))
    decreases |es|
  {
    if es != [] {
      assert FromReviews(es[0]);
      RunKeepsLabels(Apply(items, es[0]), es[1..]);
    }
  }

  lemma {:induction false} DistinctCount(ids: seq<string>)
    requires Distinct(ids)
    ensures |set x | x in ids| == |ids|
  {
    if ids != [] {
      var n := |ids| - 1;
      DistinctCount(ids[..n]);
      assert (set x | x in ids) == (set x | x in ids[..n]) + {ids[n]};
      assert ids[n] !in ids[..n];
    }
  }

  /** In every run, whatever humans and the clock do: validations = successes + failures =
      number of distinct validation identifiers; the history starts at `Proposed`, each entry
      starts where the one before it ended unless the record silently expired in between, and
      the last one ends at the present status or the record has silently expired since. */
  lemma CountersAreTheLog(es: seq<Event>, id: string)
    requires forall e :: e in es ==> FromReviews(e)
    requires id in Run(map[], es)
    ensures
      var k := Run(map[], es)[id];
      && k.validated == k.successful + k.failed == |set v | v in k.validationIds|
      && Chained(k.history, k.status)
  {
    RunKeepsOneLog(map[], es);
    DistinctCount(Run(map[], es)[id].validationIds);
  }

  // ---------------------------------------------------------------- promotion without humans

  function Successes(h: seq<Entry>): nat {
    if h == [] then 0 else Successes(h[..|h| - 1]) + (if h[|h| - 1].success then 1 else 0)
  }

  predicate Rate(h: seq<Entry>, n: nat, atLeast: nat, percent: nat)
    requires n <= |h|
  {
    n >= atLeast && Successes(h[..n]) * 100 >= n * percent
  }

  ghost predicate Reached(h: seq<Entry>, atLeast: nat, percent: nat) {
    exists n :: 0 <= n <= |h| && Rate(h, n, atLeast, percent)
  }

  /** The grade a validation history earns. */
  ghost function Grade(h: seq<Entry>): Status {
    if Reached(h, 10, 90) then Trusted else if Reached(h, 3, 80) then Validated else Proposed
  }

  lemma ReachedExtend(h: seq<Entry>, e: Entry, atLeast: nat, percent: nat)
    ensures Reached(h + [e], atLeast, percent) <==>
            Reached(h, atLeast, percent) || Rate(h + [e], |h| + 1, atLeast, percent)
  {
    var g := h + [e];
    forall n | 0 <= n <= |h| ensures Rate(g, n, atLeast, percent) <==> Rate(h, n, atLeast, percent) {
      assert g[..n] == h[..n];
    }
    if Reached(h, atLeast, percent) {
      var n :| 0 <= n <= |h| && Rate(h, n, atLeast, percent);
      assert Rate(g, n, atLeast, percent);
    }
  }

  predicate Unattended(e: Event) { FromReviews(e) && !e.Decide? && !e.Restore? }

  ghost predicate Graded(k: Item) {
    k.validated == |k.history| && k.successful == Successes(k.history)
    && (k.status == Expired || k.status == Grade(k.history))
  }

  /** What one more entry does to the grade. */
  lemma GradeGrows(h: seq<Entry>, e: Entry)
    ensures Successes(h + [e]) == Successes(h) + (if e.success then 1 else 0)
    ensures
      var n, good := |h| + 1, Successes(h) + (if e.success then 1 else 0);
      Grade(h + [e]) ==
      if Grade(h) == Trusted || (n >= 10 && good * 100 >= n * 90) then Trusted
      else if Grade(h) == Validated || (n >= 3 && good * 100 >= n * 80) then Validated
      else Proposed
  {
    var g := h + [e];
    assert g[..|h|] == h && g[..|h| + 1] == g;
    ReachedExtend(h, e, 3, 80);
    ReachedExtend(h, e, 10, 90);
  }

  lemma JudgedKeepsGraded(k: Item, vid: string, success: bool, cause: string, note: string, now: Time)
    requires Graded(k)
    ensures Graded(Judged(k, vid, success, cause, note, now))
  {
    GradeGrows(k.history, Judged(k, vid, success, cause, note, now).history[|k.history|]);
  }

  ghost predicate AllGraded(items: Items) { forall id :: id in items ==> Graded(items[id]) }

  lemma NothingReachedAtStart()
    ensures Grade([]) == Proposed
  {
  }

  lemma StepKeepsGraded(items: Items, e: Event)
    requires AllGraded(items) && Unattended(e)
    ensures AllGraded(Apply(items, e))
  {
    NothingReachedAtStart();
    match e
    case Validate(id, vid, success, cause, note, now) =>
      if id in items {
        JudgedKeepsGraded(items[id], vid, success, cause, note, now);
      }
    case _ =>
  }

  /** In every run without a human decision or restore, a record that has not expired
      stands exactly where its validations put it: `Trusted` if and only if some prefix of
      at least ten validations succeeded at 90 percent or more, otherwise `Validated` if and
      only if some prefix of at least three succeeded at 80 percent or more. */
  lemma {:induction false} PromotionIsEarned(items: Items, es: seq<Event>, id: string)
    requires AllGraded(items) && forall e :: e in es ==> Unattended(e)
    requires id in Run(items, es)
    ensures
      var k := Run(items, es)[id];
      && k.validated == |k.history|
      && (k.status == Expired || k.status == Grade(k.history))
      && (k.status == Trusted ==> Reached(k.history, 10, 90))
    decreases |es|
  {
    if es != [] {
      assert Unattended(es[0]);
      StepKeepsGraded(items, es[0]);
      PromotionIsEarned(Apply(items, es[0]), es[1..], id);
    }
  }

  // ---------------------------------------------------------------- what `samples` counts

  /** The source reviews of the proposals a run makes for one record, in order. */
  function ReviewsFor(es: seq<Event>, id: string): seq<string> {
    if es == [] then []
    else
      var e := es[|es| - 1];
      ReviewsFor(es[..|es| - 1], id)
      + (if e.Upsert? && e.x.id == id && e.x.sourceReviewIds != [] then [e.x.sourceReviewIds[0]] else [])
  }

  /** How often a review differs from the one before it. */
  function Switches(rs: seq<string>): nat {
    if |rs| <= 1 then 0
    else Switches(rs[..|rs| - 1]) + (if rs[|rs| - 1] == rs[|rs| - 2] then 0 else 1)
  }

  lemma {:induction false} RunConcat(items: Items, a: seq<Event>, b: seq<Event>)
    ensures Run(items, a + b) == Run(Run(items, a), b)
    decreases |a|
  {
    if a == [] {
      assert a + b == b;
    } else {
      assert (a + b)[1..] == a[1..] + b;
      RunConcat(Apply(items, a[0]), a[1..], b);
    }
  }

  /** A record that counts the switches of the reviews proposed for it. */
  predicate CountsSwitches(items: Items, id: string, rs: seq<string>) {
    if rs == [] then id !in items
    else id in items && items[id].samples == 1 + Switches(rs) && items[id].sourceReviewIds == [rs[|rs| - 1]]
  }

  lemma OtherEventsKeepSamples(items: Items, e: Event, id: string)
    requires !(e.Upsert? && e.x.id == id)
    ensures id in Apply(items, e) <==> id in items
    ensures id in items ==>
      Apply(items, e)[id].samples == items[id].samples && Apply(items, e)[id].sourceReviewIds == items[id].sourceReviewIds
  {
  }

  lemma ProposalCounts(items: Items, x: Item, id: string, rs: seq<string>, r: string)
    requires id != "" && x.id == id && x.sourceReviewIds == [r] && x.samples == 1
    requires CountsSwitches(items, id, rs)
    ensures CountsSwitches(Apply(items, Upsert(x)), id, rs + [r])
  {
    assert (rs + [r])[..|rs|] == rs;
    if rs != [] {
      var last := rs[|rs| - 1];
      assert CountNew([r], [last]) == if r == last then 0 else 1;
      assert Switches(rs + [r]) == Switches(rs) + (if r == last then 0 else 1);
    }
  }

  /** In any run, with proposals for any records at any confidence and any validations,
      decisions, restores and expiries in between, the sample counter of a record is one more
      than the number of times its source review changed. */
  lemma {:induction false} SamplesCountSwitches(es: seq<Event>, id: string)
    requires id != "" && forall e :: e in es ==> FromReviews(e)
    ensures CountsSwitches(Run(map[], es), id, ReviewsFor(es, id))
  {
    if es != [] {
      var n := |es| - 1;
      var e := es[n];
      var before := Run(map[], es[..n]);
      assert es[..n] + [e] == es && e in es;
      RunConcat(map[], es[..n], [e]);
      assert Run(before, [e]) == Run(Apply(before, e), []);
      SamplesCountSwitches(es[..n], id);
      if e.Upsert? && e.x.id == id {
        assert e.x.sourceReviewIds == [e.x.sourceReviewIds[0]];
        ProposalCounts(before, e.x, id, ReviewsFor(es[..n], id), e.x.sourceReviewIds[0]);
      } else {
        OtherEventsKeepSamples(before, e, id);
        assert ReviewsFor(es, id) == ReviewsFor(es[..n], id);
      }
    }
  }

  /** No review comes back after another one came in between. */
  predicate NoReturn(rs: seq<string>) {
    forall i, j, k :: 0 <= i < j < k < |rs| && rs[i] == rs[k] ==> rs[j] == rs[i]
  }

  lemma ReturnOfLast(rs: seq<string>)
    requires |rs| > 1
    ensures
      var n := |rs| - 1;
      NoReturn(rs) <==> NoReturn(rs[..n]) && (rs[n] == rs[n - 1] || rs[n] !in rs[..n])
  {
    var n := |rs| - 1;
    var init := rs[..n];
    if NoReturn(rs) && rs[n] in init {
      var i :| 0 <= i < n && init[i] == rs[n];
      assert rs[i] == rs[n];
      assert i < n - 1 ==> rs[n - 1] == rs[i];
    }
    if NoReturn(init) && (rs[n] == rs[n - 1] || rs[n] !in init) {
      forall i, j, k | 0 <= i < j < k < |rs| && rs[i] == rs[k] ensures rs[j] == rs[i] {
        assert init[i] == rs[i] && init[j] == rs[j];
        if k < n {
          assert init[k] == rs[k];
        } else {
          assert rs[n] in init;
          assert j < n - 1 ==> init[i] == init[n - 1] && init[j] == init[i];
        }
      }
    }
  }

  function DistinctReviews(rs: seq<string>): set<string> { set r | r in rs }

  lemma ReviewsOfLast(rs: seq<string>)
    requires rs != []
    ensures
      var n := |rs| - 1;
      |DistinctReviews(rs)| == |DistinctReviews(rs[..n])| + (if rs[n] in rs[..n] then 0 else 1)
  {
    var init := rs[..|rs| - 1];
    assert rs == init + [rs[|rs| - 1]];
    assert DistinctReviews(rs) == DistinctReviews(init) + {rs[|rs| - 1]};
  }

  /** The distinct reviews are at most one more than the switches, and as many if and only if
      no review returns after another. */
  lemma {:induction false} SwitchesOfDistinct(rs: seq<string>)
    requires rs != []
    ensures |DistinctReviews(rs)| <= 1 + Switches(rs)
    ensures 1 + Switches(rs) == |DistinctReviews(rs)| <==> NoReturn(rs)
  {
    var n := |rs| - 1;
    ReviewsOfLast(rs);
    if n == 0 {
      assert |DistinctReviews(rs[..0])| == 0;
    } else {
      SwitchesOfDistinct(rs[..n]);
      ReturnOfLast(rs);
      assert rs[..n][n - 1] == rs[n - 1];
    }
  }

  /** So in every run the sample counter of a record is the number of its distinct source
      reviews if and only if no review returns after another; otherwise it is larger. */
  lemma SamplesAreReviewsIff(es: seq<Event>, id: string)
    requires id in Run(map[], es) && id != "" && forall e :: e in es ==> FromReviews(e)
    ensures
      var k, rs := Run(map[], es)[id], ReviewsFor(es, id);
      && k.samples >= |DistinctReviews(rs)|
      && (k.samples == |DistinctReviews(rs)| <==> NoReturn(rs))
  {
    SamplesCountSwitches(es, id);
    SwitchesOfDistinct(ReviewsFor(es, id));
  }

  // ---------------------------------------------------------------- what each event writes

  /** A validation that counts: one more, on the side it belongs to; the cause of a failure and
      a note that says something replace the last ones; the record lives thirty days from its
      first validation on; and it is promoted from three validations with four fifths successes,
      and from ten with nine tenths, by one step at a time or by both at once. */
  lemma ValidationWrites(items: Items, id: string, vid: string, success: bool, cause: string, note: string, now: Time)
    requires vid != "" && id in items && vid !in items[id].validationIds
    ensures
      var after := Apply(items, Validate(id, vid, success, cause, note, now));
      var k, r := items[id], after[id];
      var n, good := k.validated + 1, k.successful + (if success then 1 else 0);
      var validated := k.status == Validated || (k.status == Proposed && n >= 3 && 5 * good >= 4 * n);
      && after == items[id := r]
      && r.validated == n && r.successful == good && r.failed == k.failed + (if success then 0 else 1)
      && r.validationIds == k.validationIds + [vid]
      && r.failureCause == (if success then k.failureCause else cause)
      && r.humanNote == (if note == "" then k.humanNote else note)
      && r.expiresAt == (if k.expiresAt.None? then Some(now + 2_592_000_000_000_000) else k.expiresAt)
      && r.status == (if validated && n >= 10 && 10 * good >= 9 * n then Trusted
                      else if validated then Validated else k.status)
      && r.history == k.history + [Entry(vid, success, cause, note, k.status, r.status)]
      && r.samples == k.samples && r.confidence == k.confidence && r.sourceReviewIds == k.sourceReviewIds
      && r.id == k.id && r.signature == k.signature && r.recommendedModel == k.recommendedModel
  {
  }

  lemma ValidationRefused(items: Items, id: string, vid: string, success: bool, cause: string, note: string, now: Time)
    requires vid == "" || id !in items || vid in items[id].validationIds
    ensures Apply(items, Validate(id, vid, success, cause, note, now)) == items
  {
  }

  /** A human decision writes status, note and cause, and its history entry, which is a success
      unless it rejects or expires; it needs a record of another status. */
  lemma DecisionWrites(items: Items, id: string, to: Status, note: string, cause: string, now: Time, did: string)
    ensures
      var after := Apply(items, Decide(id, to, note, cause, now, did));
      if id in items && items[id].status != to then
        var k := items[id];
        var good := to == Proposed || to == Validated || to == Trusted;
        after == items[id := k.(status := to, humanNote := note, failureCause := cause,
                                history := k.history + [Entry(did, good, cause, note, k.status, to)])]
      else after == items
  {
  }

  /** A restore is to validated or trusted, from expired or rejected, and gives thirty days more. */
  lemma RestoreWrites(items: Items, id: string, to: Status, note: string, now: Time, rid: string)
    ensures
      var after := Apply(items, Restore(id, to, note, now, rid));
      if to in {Validated, Trusted} && id in items && items[id].status in {Expired, Rejected} then
        var k := items[id];
        after == items[id := k.(status := to, humanNote := note, expiresAt := Some(now + 2_592_000_000_000_000),
                                history := k.history + [Entry(rid, true, "", note, k.status, to)])]
      else after == items
  {
  }

  /** An expiry changes the status of the validated and trusted records whose time was over
      before, and nothing else. */
  lemma ExpiryWrites(items: Items, now: Time, id: string)
    ensures
      var after := Apply(items, Expire(now));
      && (id in after <==> id in items)
      && (id in items ==>
            var k := items[id];
            after[id] == if k.expiresAt.Some? && k.expiresAt.value < now && k.status in {Validated, Trusted}
                         then k.(status := Expired) else k)
  {
  }

  /** A proposal over a record there already brings its confidence and sources, and keeps every
      count, decision and date of the record; without one it is filed as it is. */
  lemma ProposalWrites(items: Items, x: Item)
    requires x.id != ""
    ensures
      var after := Apply(items, Upsert(x));
      && after == items[x.id := after[x.id]]
      && (x.id !in items ==> after[x.id] == x)
      && (x.id in items ==>
            var k, r := items[x.id], after[x.id];
            && r.id == x.id && r.signature == x.signature && r.recommendedModel == x.recommendedModel
            && r.confidence == x.confidence && r.sourceReviewIds == x.sourceReviewIds
            && r.validated == k.validated && r.successful == k.successful && r.failed == k.failed
            && r.validationIds == k.validationIds && r.history == k.history && r.status == k.status
            && r.failureCause == k.failureCause && r.humanNote == k.humanNote && r.expiresAt == k.expiresAt)
  {
  }

  lemma NamelessIsDropped(items: Items, x: Item)
    requires x.id == ""
    ensures Apply(items, Upsert(x)) == items
  {
  }

  function Unknown(ids: seq<string>, known: seq<string>): set<string> { set i | i in ids && i !in known }

  /** Sources are counted once each, and only when the record does not have them. */
  lemma {:induction false} NewSources(ids: seq<string>, known: seq<string>)
    ensures CountNew(ids, known) == |Unknown(ids, known)|
    decreases |ids|
  {
    if ids != [] {
      assert ids == [ids[0]] + ids[1..];
      if ids[0] in known {
        NewSources(ids[1..], known);
        assert Unknown(ids, known) == Unknown(ids[1..], known);
      } else {
        NewSources(ids[1..], known + [ids[0]]);
        assert Unknown(ids, known) == Unknown(ids[1..], known + [ids[0]]) + {ids[0]};
      }
    }
  }

  /** The samples of a record grow by the sources that are new to it, and are never none. */
  lemma SamplesGrow(items: Items, x: Item)
    requires x.id != "" && x.id in items
    ensures
      var total := items[x.id].samples + |Unknown(x.sourceReviewIds, items[x.id].sourceReviewIds)|;
      Apply(items, Upsert(x))[x.id].samples == if total == 0 then 1 else total
  {
    NewSources(x.sourceReviewIds, items[x.id].sourceReviewIds);
  }
}
