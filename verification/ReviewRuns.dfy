/** Review runs that interleave: claims, answers, single writes of the result loops, new
    records, recovery and retention in any order (`internal/runtime/review.go`,
    `internal/runtime/reviewer.go`, `internal/runtime/retention.go`). */
module ReviewRuns {
  import opened Keys
  import opened Reviews

  /** Where a run is: waiting for the answer, in front of decision `next`, in front of record
      `next` of the closing loop, or in front of record `next` when all are marked failed. */
  datatype Phase =
    | Asking
    | Deciding(ds: seq<Decision>, next: nat)
    | Closing(ds: seq<Decision>, next: nat)
    | Failing(msg: string, next: nat)

  datatype Run = Run(batch: seq<Review>, phase: Phase, panel: Panel)

  datatype State = State(items: Items, locked: bool, runs: map<nat, Run>)

  datatype Event =
    | Claim(r: nat, before: Time, batchId: string, batch: seq<Review>, panel: Panel)
    | Unlock
    | Answer(r: nat, answer: Reviews.Answer)
    | Step(r: nat)
    | Add(x: Review)
    | Recover(now: Time, maxAge: nat)
    | Prune(before: Time)

  // ---------------------------------------------------------------- steps

  predicate CanClaim(s: State, e: Event)
    requires e.Claim?
  {
    e.r !in s.runs && !s.locked && IsClaim(s.items, Marked(s.items, Ids(e.batch), e.batchId), e.before, e.batchId, e.batch)
  }

  /** The record a step of a run writes, if it writes one. */
  function Write(run: Run, items: Items): Option<Review> {
    match run.phase
    case Asking => None
    case Deciding(ds, i) =>
      if i < |ds| && ds[i].id in Ids(run.batch) && ds[i].id in items && Acceptable(ds[i], run.panel.available)
      then Some(Decided(items[ds[i].id], ds[i], run.panel.model)) else None
    case Closing(ds, i) =>
      if i < |run.batch| && !Mentioned(run.batch[i].id, ds) && run.batch[i].id in items
      then Some(FailedWith(items[run.batch[i].id], UNDECIDED)) else None
    case Failing(msg, i) =>
      if i < |run.batch| && run.batch[i].id in items then Some(FailedWith(items[run.batch[i].id], msg)) else None
  }

  /** The run after a step, or nothing when it is over. */
  function Onward(run: Run): Option<Run> {
    match run.phase
    case Asking => Some(run)
    case Deciding(ds, i) => Some(run.(phase := if i < |ds| then Deciding(ds, i + 1) else Closing(ds, 0)))
    case Closing(ds, i) => if i < |run.batch| then Some(run.(phase := Closing(ds, i + 1))) else None
    case Failing(msg, i) => if i < |run.batch| then Some(run.(phase := Failing(msg, i + 1))) else None
  }

  function Put(items: Items, x: Option<Review>): Items { if x.Some? then items[x.value.id := x.value] else items }

  function Next(s: State, e: Event): State {
    match e
    case Claim(r, before, batchId, batch, panel) =>
      if !CanClaim(s, e) then s
      else State(Marked(s.items, Ids(batch), batchId), true,
                 if batch == [] then s.runs else s.runs[r := Run(batch, Asking, panel)])
    case Unlock => s.(locked := false)
    case Answer(r, answer) =>
      if r !in s.runs || s.runs[r].phase != Asking then s
      else
        var phase := match answer
          case Unavailable(msg) => Failing(msg, 0)
          case Malformed => Failing(NOT_JSON, 0)
          case Answered(ds) => Deciding(ds, 0);
        s.(runs := s.runs[r := s.runs[r].(phase := phase)])
    case Step(r) =>
      if r !in s.runs then s
      else
        var on := Onward(s.runs[r]);
        State(Put(s.items, Write(s.runs[r], s.items)), s.locked,
              if on.Some? then s.runs[r := on.value] else s.runs - {r})
    case Add(x) => if x.id == "" then s else s.(items := s.items[x.id := Normal(x)])
    case Recover(now, maxAge) => s.(items := map id | id in s.items :: Recovered(s.items[id], now, maxAge))
    case Prune(before) => s.(items := Pruned(s.items, before))
  }

  function RunAll(s: State, es: seq<Event>): State
    decreases |es|
  {
    if es == [] then s else RunAll(Next(s, es[0]), es[1..])
  }

  // ---------------------------------------------------------------- claims

  /** A run still has record `j` of its batch in its hands. */
  predicate Holds(run: Run, j: nat) {
    j < |run.batch|
    && match run.phase
       case Asking => true
       case Deciding(_, _) => true
       case Closing(ds, i) => i <= j && !Mentioned(run.batch[j].id, ds)
       case Failing(_, i) => i <= j
  }

  predicate HoldsId(run: Run, id: string) { exists j :: 0 <= j < |run.batch| && Holds(run, j) && run.batch[j].id == id }

  /** What a held record looks like: as claimed, with the decisions filed so far. */
  function Held(run: Run, j: nat): Review
    requires j < |run.batch|
  {
    if run.phase.Deciding? && run.phase.next <= |run.phase.ds|
    then After(run.batch[j], run.phase.ds[..run.phase.next], run.panel) else run.batch[j]
  }

  predicate PhaseOk(run: Run) { run.phase.Deciding? ==> run.phase.next <= |run.phase.ds| }

  predicate RunOk(run: Run, items: Items) {
    && PhaseOk(run) && DistinctIds(run.batch)
    && (forall j :: 0 <= j < |run.batch| ==> run.batch[j].status == Some(Processing))
    && forall j :: 0 <= j < |run.batch| && Holds(run, j) && run.batch[j].id in items ==>
         items[run.batch[j].id] == Held(run, j)
  }

  ghost predicate Apart(runs: map<nat, Run>) {
    forall a, b, id :: a in runs && b in runs && a != b && HoldsId(runs[a], id) ==> !HoldsId(runs[b], id)
  }

  /** Every record is filed under its own identifier, no record is in two hands, and every
      held record that is still there is as its run believes. */
  ghost predicate Inv(s: State) {
    FiledById(s.items) && (forall a :: a in s.runs ==> RunOk(s.runs[a], s.items)) && Apart(s.runs)
  }

  ghost predicate HeldId(s: State, id: string) { exists a :: a in s.runs && HoldsId(s.runs[a], id) }

  /** Some run that holds record `id` believes it to be something else than `x`. */
  ghost predicate Contradicts(s: State, id: string, x: Review) {
    exists a, j :: a in s.runs && 0 <= j < |s.runs[a].batch| && Holds(s.runs[a], j)
                   && s.runs[a].batch[j].id == id && Held(s.runs[a], j) != x
  }

  /** An event from outside that puts something else in place of a held record. */
  ghost predicate Disturbs(s: State, e: Event) {
    match e
    case Add(x) => x.id != "" && Contradicts(s, x.id, Normal(x))
    case Recover(now, maxAge) => exists id :: HeldId(s, id) && id in s.items && Overdue(s.items[id], now, maxAge)
    case _ => false
  }

  // ---------------------------------------------------------------- small steps

  lemma {:induction false} AfterStatus(x: Review, ds: seq<Decision>, panel: Panel)
    ensures After(x, ds, panel).status == x.status || After(x, ds, panel).status == Some(Reviewed)
            || After(x, ds, panel).status == Some(Skipped)
    ensures After(x, ds, panel).id == x.id
  {
    if ds != [] {
      AfterStatus(x, ds[..|ds| - 1], panel);
    }
  }

  lemma HeldIs(run: Run, items: Items, id: string) returns (j: nat)
    requires RunOk(run, items) && HoldsId(run, id)
    ensures j < |run.batch| && Holds(run, j) && run.batch[j].id == id
    ensures Held(run, j).status != Some(Pending) && Held(run, j).status != Some(Failed)
    ensures id in items ==> items[id] == Held(run, j)
  {
    j :| 0 <= j < |run.batch| && Holds(run, j) && run.batch[j].id == id;
    if run.phase.Deciding? {
      AfterStatus(run.batch[j], run.phase.ds[..run.phase.next], run.panel);
    }
  }

  /** A run is content as long as the records it holds are left alone or gone. */
  lemma RunOkElsewhere(run: Run, items: Items, later: Items)
    requires RunOk(run, items)
    requires forall id :: HoldsId(run, id) && id in later ==> id in items && later[id] == items[id]
    ensures RunOk(run, later)
  {
    forall j | 0 <= j < |run.batch| && Holds(run, j) && run.batch[j].id in later
      ensures later[run.batch[j].id] == Held(run, j)
    {
      assert HoldsId(run, run.batch[j].id);
    }
  }

  // ---------------------------------------------------------------- events from outside

  lemma OutsideKeeps(s: State, later: Items)
    requires Inv(s) && FiledById(later)
    requires forall id :: HeldId(s, id) && id in later ==> id in s.items && later[id] == s.items[id]
    ensures Inv(s.(items := later))
  {
    forall a | a in s.runs ensures RunOk(s.runs[a], later) {
      forall id | HoldsId(s.runs[a], id) && id in later ensures id in s.items && later[id] == s.items[id] {
        assert HeldId(s, id);
      }
      RunOkElsewhere(s.runs[a], s.items, later);
    }
  }

  lemma AddIff(s: State, e: Event)
    requires Inv(s) && e.Add?
    ensures Inv(Next(s, e)) <==> !Disturbs(s, e)
  {
    if e.x.id != "" {
      var id := e.x.id;
      var later := s.items[id := Normal(e.x)];
      if Disturbs(s, e) {
        var a, j :| a in s.runs && 0 <= j < |s.runs[a].batch| && Holds(s.runs[a], j)
                    && s.runs[a].batch[j].id == id && Held(s.runs[a], j) != Normal(e.x);
        assert !RunOk(s.runs[a], later);
        assert a in Next(s, e).runs && Next(s, e).runs[a] == s.runs[a];
      } else {
        forall a | a in s.runs ensures RunOk(s.runs[a], later) {
          AddedRunOk(s, a, id, Normal(e.x));
        }
      }
    }
  }

  lemma AddedRunOk(s: State, a: nat, id: string, x: Review)
    requires Inv(s) && a in s.runs && !Contradicts(s, id, x)
    ensures RunOk(s.runs[a], s.items[id := x])
  {
    var run, later := s.runs[a], s.items[id := x];
    forall j | 0 <= j < |run.batch| && Holds(run, j) && run.batch[j].id in later
      ensures later[run.batch[j].id] == Held(run, j)
    {
      assert RunOk(run, s.items);
    }
  }

  lemma RecoverIff(s: State, e: Event)
    requires Inv(s) && e.Recover?
    ensures Inv(Next(s, e)) <==> !Disturbs(s, e)
  {
    var later := map id | id in s.items :: Recovered(s.items[id], e.now, e.maxAge);
    if Disturbs(s, e) {
      var id :| HeldId(s, id) && id in s.items && Overdue(s.items[id], e.now, e.maxAge);
      var a :| a in s.runs && HoldsId(s.runs[a], id);
      var j := HeldIs(s.runs[a], s.items, id);
      assert later[id] != s.items[id];
      assert !RunOk(s.runs[a], later);
      assert a in Next(s, e).runs && Next(s, e).runs[a] == s.runs[a];
    } else {
      OutsideKeeps(s, later);
    }
  }

  // ---------------------------------------------------------------- steps of runs

  /** One run moves: it holds no more than before, and writes only what it holds. */
  lemma MoveKeeps(s: State, r: nat, run: Run, items: Items, locked: bool)
    requires Inv(s) && r in s.runs && FiledById(items) && RunOk(run, items)
    requires forall id :: HoldsId(run, id) ==> HoldsId(s.runs[r], id)
    requires forall id :: id in items && !HoldsId(s.runs[r], id) ==> id in s.items && items[id] == s.items[id]
    ensures Inv(State(items, locked, s.runs[r := run]))
  {
    forall a | a in s.runs && a != r ensures RunOk(s.runs[a], items) {
      RunOkElsewhere(s.runs[a], s.items, items);
    }
  }

  lemma EndKeeps(s: State, r: nat, items: Items, locked: bool)
    requires Inv(s) && r in s.runs && FiledById(items)
    requires forall id :: id in items && !HoldsId(s.runs[r], id) ==> id in s.items && items[id] == s.items[id]
    ensures Inv(State(items, locked, s.runs - {r}))
  {
    forall a | a in s.runs && a != r ensures RunOk(s.runs[a], items) {
      RunOkElsewhere(s.runs[a], s.items, items);
    }
  }

  lemma AnswerKeeps(s: State, e: Event)
    requires Inv(s) && e.Answer?
    ensures Inv(Next(s, e))
  {
    if e.r in s.runs && s.runs[e.r].phase == Asking {
      var run := s.runs[e.r];
      var on := Next(s, e).runs[e.r];
      assert forall j :: 0 <= j < |run.batch| ==> Holds(run, j);
      forall j | 0 <= j < |on.batch| && Holds(on, j) ensures Held(on, j) == Held(run, j) {
        assert on.phase.Deciding? ==> on.phase.ds[..0] == [];
      }
      MoveKeeps(s, e.r, on, s.items, s.locked);
    }
  }

  lemma IdIsHeld(run: Run, id: string) returns (j: nat)
    requires run.phase.Deciding? && id in Ids(run.batch)
    ensures j < |run.batch| && run.batch[j].id == id && HoldsId(run, id)
  {
    var x :| x in run.batch && x.id == id;
    j :| 0 <= j < |run.batch| && run.batch[j] == x;
    assert Holds(run, j);
  }

  lemma DecisionMoves(run: Run, items: Items)
    requires RunOk(run, items) && FiledById(items) && run.phase.Deciding? && run.phase.next < |run.phase.ds|
    ensures RunOk(Onward(run).value, Put(items, Write(run, items)))
  {
    var on, later := Onward(run).value, Put(items, Write(run, items));
    var ds, i := run.phase.ds, run.phase.next;
    assert ds[..i + 1][..i] == ds[..i];
    forall j | 0 <= j < |on.batch| && Holds(on, j) && on.batch[j].id in later
      ensures later[on.batch[j].id] == Held(on, j)
    {
      assert Holds(run, j);
      AfterStatus(run.batch[j], ds[..i], run.panel);
      if ds[i].id == run.batch[j].id {
        assert run.batch[j] in run.batch;
      }
    }
  }

  lemma LastDecisionMoves(run: Run, items: Items)
    requires RunOk(run, items) && run.phase.Deciding? && run.phase.next == |run.phase.ds|
    ensures RunOk(Onward(run).value, items)
  {
    var on := Onward(run).value;
    var ds := run.phase.ds;
    assert ds[..|ds|] == ds;
    forall j | 0 <= j < |on.batch| && Holds(on, j) && on.batch[j].id in items
      ensures items[on.batch[j].id] == Held(on, j)
    {
      assert Holds(run, j);
      AfterKeepsId(run.batch[j], ds, run.panel);
    }
  }

  lemma ClosingMoves(run: Run, items: Items)
    requires RunOk(run, items) && FiledById(items) && (run.phase.Closing? || run.phase.Failing?)
    requires run.phase.next < |run.batch|
    ensures RunOk(Onward(run).value, Put(items, Write(run, items)))
  {
    var on, later := Onward(run).value, Put(items, Write(run, items));
    forall j | 0 <= j < |on.batch| && Holds(on, j) && on.batch[j].id in later
      ensures later[on.batch[j].id] == Held(on, j)
    {
      assert Holds(run, j) && on.batch[j].id != run.batch[run.phase.next].id;
    }
  }

  lemma OnwardHoldsLess(run: Run, id: string)
    requires PhaseOk(run) && Onward(run).Some? && HoldsId(Onward(run).value, id)
    ensures HoldsId(run, id)
  {
    var on := Onward(run).value;
    var j :| 0 <= j < |on.batch| && Holds(on, j) && on.batch[j].id == id;
    assert Holds(run, j);
  }

  lemma WritesWhatItHolds(run: Run, items: Items)
    requires PhaseOk(run) && FiledById(items)
    ensures
      var w := Write(run, items);
      w.Some? ==> HoldsId(run, w.value.id) && FiledById(Put(items, w))
  {
    var w := Write(run, items);
    if w.Some? {
      match run.phase
      case Deciding(ds, i) => var _ := IdIsHeld(run, ds[i].id);
      case Closing(ds, i) => assert Holds(run, i);
      case Failing(msg, i) => assert Holds(run, i);
    }
  }

  lemma StepKeeps(s: State, e: Event)
    requires Inv(s) && e.Step?
    ensures Inv(Next(s, e))
  {
    if e.r in s.runs {
      var run := s.runs[e.r];
      var later := Put(s.items, Write(run, s.items));
      WritesWhatItHolds(run, s.items);
      var on := Onward(run);
      if on.None? {
        EndKeeps(s, e.r, later, s.locked);
      } else {
        OnwardIsOk(run, s.items);
        forall id | HoldsId(on.value, id) ensures HoldsId(run, id) {
          OnwardHoldsLess(run, id);
        }
        MoveKeeps(s, e.r, on.value, later, s.locked);
      }
    }
  }

  lemma OnwardIsOk(run: Run, items: Items)
    requires RunOk(run, items) && FiledById(items) && Onward(run).Some?
    ensures RunOk(Onward(run).value, Put(items, Write(run, items)))
  {
    match run.phase
    case Asking =>
    case Deciding(ds, i) =>
      if i < |ds| {
        DecisionMoves(run, items);
      } else {
        LastDecisionMoves(run, items);
      }
    case Closing(_, _) => ClosingMoves(run, items);
    case Failing(_, _) => ClosingMoves(run, items);
  }

  // ---------------------------------------------------------------- claims

  lemma ClaimedIsFree(s: State, id: string)
    requires Inv(s) && id in s.items && (s.items[id].status == Some(Pending) || s.items[id].status == Some(Failed))
    ensures !HeldId(s, id)
  {
    forall a | a in s.runs ensures !HoldsId(s.runs[a], id) {
      if HoldsId(s.runs[a], id) {
        var j := HeldIs(s.runs[a], s.items, id);
      }
    }
  }

  lemma NewRunOk(s: State, e: Event)
    requires Inv(s) && e.Claim? && CanClaim(s, e)
    ensures RunOk(Run(e.batch, Asking, e.panel), Marked(s.items, Ids(e.batch), e.batchId))
    ensures forall id :: HoldsId(Run(e.batch, Asking, e.panel), id) ==> !HeldId(s, id) && id in Ids(e.batch)
  {
    var run := Run(e.batch, Asking, e.panel);
    forall j | 0 <= j < |e.batch|
      ensures e.batch[j].id in Ids(e.batch) && e.batch[j].id in s.items && !HeldId(s, e.batch[j].id)
      ensures e.batch[j] == Claimed(s.items[e.batch[j].id], e.batchId)
    {
      assert e.batch[j] in e.batch;
      ClaimedIsFree(s, e.batch[j].id);
    }
  }

  lemma ClaimKeeps(s: State, e: Event)
    requires Inv(s) && e.Claim?
    ensures Inv(Next(s, e))
  {
    if CanClaim(s, e) {
      var later := Marked(s.items, Ids(e.batch), e.batchId);
      forall id | HeldId(s, id) && id in later ensures id in s.items && later[id] == s.items[id] {
        if id in Ids(e.batch) {
          ClaimedIsFree(s, id);
        }
      }
      OutsideKeeps(s, later);
      if e.batch != [] {
        NewRunOk(s, e);
        forall a, id | a in s.runs && HoldsId(s.runs[a], id) ensures !HoldsId(Run(e.batch, Asking, e.panel), id) {
          assert HeldId(s, id);
        }
      }
    }
  }

  // ---------------------------------------------------------------- every interleaving

  /** An event keeps every claim exclusive and undisturbed if and only if it is not a new
      record that contradicts a held one or a recovery of a held one; retention is not. */
  lemma EventKeepsClaimsIff(s: State, e: Event)
    requires Inv(s)
    ensures Inv(Next(s, e)) <==> !Disturbs(s, e)
  {
    match e
    case Claim(_, _, _, _, _) => ClaimKeeps(s, e);
    case Unlock => OutsideKeeps(s, s.items);
    case Answer(_, _) => AnswerKeeps(s, e);
    case Step(_) => StepKeeps(s, e);
    case Add(_) => AddIff(s, e);
    case Recover(_, _) => RecoverIff(s, e);
    case Prune(before) => OutsideKeeps(s, Pruned(s.items, before));
  }

  ghost predicate Undisturbed(s: State, es: seq<Event>)
    decreases |es|
  {
    es == [] || (!Disturbs(s, es[0]) && Undisturbed(Next(s, es[0]), es[1..]))
  }

  lemma {:induction false} RunKeepsClaims(s: State, es: seq<Event>)
    requires Inv(s) && Undisturbed(s, es)
    ensures Inv(RunAll(s, es))
    decreases |es|
  {
    if es != [] {
      EventKeepsClaimsIff(s, es[0]);
      RunKeepsClaims(Next(s, es[0]), es[1..]);
    }
  }

  const START: State := State(map[], false, map[])

  /** In every undisturbed interleaving no record is in the hands of two runs. */
  lemma NoTwoClaims(es: seq<Event>, a: nat, b: nat, id: string)
    requires Undisturbed(START, es)
    requires var s := RunAll(START, es);
      a in s.runs && b in s.runs && HoldsId(s.runs[a], id) && HoldsId(s.runs[b], id)
    ensures a == b
  {
    RunKeepsClaims(START, es);
  }

  /** What the run makes of record `j` of its batch. */
  function Outcome(run: Run, j: nat): Review
    requires j < |run.batch| && run.phase != Asking
  {
    match run.phase
    case Deciding(ds, _) => Final(run.batch[j], ds, run.panel)
    case Closing(ds, _) => Final(run.batch[j], ds, run.panel)
    case Failing(msg, _) => FailedWith(run.batch[j], msg)
  }

  /** The next step of run `r` lets record `j` go. */
  predicate LetsGo(s: State, r: nat, j: nat)
    requires r in s.runs && s.runs[r].phase != Asking
  {
    var on := Onward(s.runs[r]);
    Holds(s.runs[r], j) && (on.None? || !Holds(on.value, j))
  }

  lemma LetGoIsFinal(run: Run, items: Items, j: nat)
    requires RunOk(run, items) && FiledById(items) && run.phase != Asking && Holds(run, j)
    requires Onward(run).None? || !Holds(Onward(run).value, j)
    requires run.batch[j].id in items
    ensures
      var later := Put(items, Write(run, items));
      run.batch[j].id in later && later[run.batch[j].id] == Outcome(run, j)
  {
    match run.phase
    case Deciding(ds, i) =>
      assert ds[..|ds|] == ds;
    case Closing(ds, i) =>
    case Failing(msg, i) =>
  }

  /** In every undisturbed interleaving from the empty store, whenever a run lets a record go
      that is still there, the record is exactly what the run's own claim, answer and decisions
      make of it, as if the run had been alone. */
  lemma RunIsIsolated(es: seq<Event>, r: nat, j: nat)
    requires Undisturbed(START, es)
    requires var s := RunAll(START, es);
      r in s.runs && s.runs[r].phase != Asking && LetsGo(s, r, j) && s.runs[r].batch[j].id in s.items
    ensures
      var s := RunAll(START, es);
      var t, id := Next(s, Step(r)), s.runs[r].batch[j].id;
      id in t.items && t.items[id] == Outcome(s.runs[r], j)
  {
    RunKeepsClaims(START, es);
    var s := RunAll(START, es);
    LetGoIsFinal(s.runs[r], s.items, j);
  }

  // ---------------------------------------------------------------- a run on its own

  /** A claim takes the lock, and one that finds it taken does nothing; a claim of nothing begins
      no run; the lock is given back once the claim is written. */
  lemma LockWrites(s: State, r: nat, before: Time, batchId: string, batch: seq<Review>, panel: Panel)
    ensures
      var e := Claim(r, before, batchId, batch, panel);
      var t := Next(s, e);
      && (s.locked || r in s.runs ==> t == s)
      && (CanClaim(s, e) ==>
            t.locked && t.runs == (if |batch| == 0 then s.runs else s.runs[r := Run(batch, Asking, panel)]))
    ensures Next(s, Unlock) == State(s.items, false, s.runs)
    ensures START.items == map[] && !START.locked && START.runs == map[]
  {
  }

  /** `k` steps of run `r`. */
  function Steps(s: State, r: nat, k: nat): State { if k == 0 then s else Next(Steps(s, r, k - 1), Step(r)) }

  lemma {:induction false} StepsAdd(s: State, r: nat, a: nat, b: nat)
    ensures Steps(Steps(s, r, a), r, b) == Steps(s, r, a + b)
  {
    if b > 0 {
      StepsAdd(s, r, a, b - 1);
    }
  }

  /** A run that has claimed its batch: the records are there, each once. */
  predicate HasBatch(s: State, r: nat) {
    r in s.runs && FiledById(s.items) && DistinctIds(s.runs[r].batch) && Ids(s.runs[r].batch) <= s.items.Keys
  }

  function At(s: State, r: nat, items: Items, phase: Phase): State
    requires r in s.runs
  {
    State(items, s.locked, s.runs[r := s.runs[r].(phase := phase)])
  }

  /** Steps along a path of states. */
  lemma {:induction false} StepsAlong(s: State, r: nat, path: nat -> State, n: nat)
    requires path(0) == s && forall i: nat :: i < n ==> Next(path(i), Step(r)) == path(i + 1)
    ensures Steps(s, r, n) == path(n)
  {
    if n > 0 {
      StepsAlong(s, r, path, n - 1);
    }
  }

  lemma SameRun(s: State, r: nat)
    requires r in s.runs
    ensures At(s, r, s.items, s.runs[r].phase) == s
  {
    assert s.runs[r := s.runs[r]] == s.runs;
  }

  lemma DecideNext(s: State, r: nat, ds: seq<Decision>, i: nat)
    requires HasBatch(s, r) && i < |ds|
    ensures
      var run := s.runs[r];
      var ids := Ids(run.batch);
      Next(At(s, r, Filed(s.items, ids, ds[..i], run.panel), Deciding(ds, i)), Step(r))
      == At(s, r, Filed(s.items, ids, ds[..i + 1], run.panel), Deciding(ds, i + 1))
  {
    var run := s.runs[r];
    FileOne(s.items, Ids(run.batch), ds[..i], ds[i], run.panel);
    assert ds[..i + 1] == ds[..i] + [ds[i]];
    FiledKeys(s.items, Ids(run.batch), ds[..i], run.panel);
  }

  lemma DecidingAlone(s: State, r: nat, ds: seq<Decision>, n: nat)
    requires HasBatch(s, r) && s.runs[r].phase == Deciding(ds, 0) && n <= |ds|
    ensures
      var run := s.runs[r];
      Steps(s, r, n) == At(s, r, Filed(s.items, Ids(run.batch), ds[..n], run.panel), Deciding(ds, n))
  {
    var run := s.runs[r];
    var path := (i: nat) =>
      if i <= |ds| then At(s, r, Filed(s.items, Ids(run.batch), ds[..i], run.panel), Deciding(ds, i)) else s;
    assert Filed(s.items, Ids(run.batch), [], run.panel) == s.items;
    SameRun(s, r);
    forall i: nat | i < n ensures Next(path(i), Step(r)) == path(i + 1) {
      DecideNext(s, r, ds, i);
    }
    StepsAlong(s, r, path, n);
  }

  lemma FiledKeys(items: Items, ids: set<string>, ds: seq<Decision>, panel: Panel)
    requires FiledById(items)
    ensures Filed(items, ids, ds, panel).Keys == items.Keys && FiledById(Filed(items, ids, ds, panel))
  {
    forall id | id in items ensures After(items[id], ds, panel).id == id {
      AfterKeepsId(items[id], ds, panel);
    }
  }

  lemma SweptById(items: Items, ids: set<string>, ds: seq<Decision>)
    requires FiledById(items)
    ensures FiledById(Swept(items, ids, ds))
  {
  }

  lemma CloseNext(s: State, r: nat, ds: seq<Decision>, i: nat)
    requires HasBatch(s, r) && i < |s.runs[r].batch|
    ensures
      var b := s.runs[r].batch;
      Next(At(s, r, Swept(s.items, Ids(b[..i]), ds), Closing(ds, i)), Step(r))
      == At(s, r, Swept(s.items, Ids(b[..i + 1]), ds), Closing(ds, i + 1))
  {
    var b := s.runs[r].batch;
    NextId(b, i);
    SweepOne(s.items, Ids(b[..i]), ds, b[i].id);
    SweptById(s.items, Ids(b[..i]), ds);
  }

  lemma ClosingAlone(s: State, r: nat, ds: seq<Decision>, n: nat)
    requires HasBatch(s, r) && s.runs[r].phase == Closing(ds, 0) && n <= |s.runs[r].batch|
    ensures Steps(s, r, n) == At(s, r, Swept(s.items, Ids(s.runs[r].batch[..n]), ds), Closing(ds, n))
  {
    var b := s.runs[r].batch;
    var path := (i: nat) => if i <= |b| then At(s, r, Swept(s.items, Ids(b[..i]), ds), Closing(ds, i)) else s;
    assert Swept(s.items, Ids(b[..0]), ds) == s.items;
    SameRun(s, r);
    forall i: nat | i < n ensures Next(path(i), Step(r)) == path(i + 1) {
      CloseNext(s, r, ds, i);
    }
    StepsAlong(s, r, path, n);
  }

  lemma FailOne(items: Items, ids: set<string>, msg: string, id: string)
    requires id in items && id !in ids
    ensures MarkedFailed(items, ids + {id}, msg) == MarkedFailed(items, ids, msg)[id := FailedWith(items[id], msg)]
    ensures id in MarkedFailed(items, ids, msg) && MarkedFailed(items, ids, msg)[id] == items[id]
  {
  }

  /** One step of the loop that marks records failed. */
  lemma FailStep(s: State, r: nat, items: Items, msg: string, i: nat)
    requires r in s.runs && i < |s.runs[r].batch| && s.runs[r].batch[i].id in items && FiledById(items)
    ensures
      var id := s.runs[r].batch[i].id;
      Next(At(s, r, items, Failing(msg, i)), Step(r)) == At(s, r, items[id := FailedWith(items[id], msg)], Failing(msg, i + 1))
  {
  }

  lemma MarkedById(items: Items, ids: set<string>, msg: string)
    requires FiledById(items)
    ensures FiledById(MarkedFailed(items, ids, msg))
  {
  }

  lemma FailingAlone(s: State, r: nat, msg: string, n: nat)
    requires HasBatch(s, r) && s.runs[r].phase == Failing(msg, 0) && n <= |s.runs[r].batch|
    ensures Steps(s, r, n) == At(s, r, MarkedFailed(s.items, Ids(s.runs[r].batch[..n]), msg), Failing(msg, n))
  {
    var b := s.runs[r].batch;
    var path := (i: nat) => if i <= |b| then At(s, r, MarkedFailed(s.items, Ids(b[..i]), msg), Failing(msg, i)) else s;
    assert MarkedFailed(s.items, Ids(b[..0]), msg) == s.items;
    SameRun(s, r);
    forall i: nat | i < n ensures Next(path(i), Step(r)) == path(i + 1) {
      NextId(b, i);
      FailNext(s, r, msg, i);
    }
    StepsAlong(s, r, path, n);
  }

  lemma FailNext(s: State, r: nat, msg: string, i: nat)
    requires r in s.runs && i < |s.runs[r].batch| && FiledById(s.items)
    requires
      var ids, id := Ids(s.runs[r].batch[..i]), s.runs[r].batch[i].id;
      id in s.items && id !in ids && Ids(s.runs[r].batch[..i + 1]) == ids + {id}
    ensures
      var b := s.runs[r].batch;
      Next(At(s, r, MarkedFailed(s.items, Ids(b[..i]), msg), Failing(msg, i)), Step(r))
      == At(s, r, MarkedFailed(s.items, Ids(b[..i + 1]), msg), Failing(msg, i + 1))
  {
    var ids, id := Ids(s.runs[r].batch[..i]), s.runs[r].batch[i].id;
    FailOne(s.items, ids, msg, id);
    MarkedById(s.items, ids, msg);
    FailStep(s, r, MarkedFailed(s.items, ids, msg), msg, i);
  }

  /** How many steps a run takes from its answer on. */
  function StepsOf(answer: Reviews.Answer, batch: seq<Review>): nat {
    match answer
    case Answered(ds) => |ds| + 1 + |batch| + 1
    case _ => |batch| + 1
  }

  /** A run that nobody disturbs from its answer on leaves what the undisturbed run of the
      reviewer leaves, and is over. */
  lemma AloneIsReviewer(s: State, r: nat, answer: Reviews.Answer)
    requires HasBatch(s, r) && s.runs[r].phase == Asking
    ensures
      var run := s.runs[r];
      Steps(Next(s, Answer(r, answer)), r, StepsOf(answer, run.batch))
      == State(Effect(s.items, Ids(run.batch), answer, run.panel), s.locked, s.runs - {r})
  {
    match answer
    case Unavailable(msg) => FailedAlone(s, r, msg);
    case Malformed => FailedAlone(s, r, NOT_JSON);
    case Answered(ds) => AnsweredAlone(s, r, ds);
  }

  lemma FailedAlone(s: State, r: nat, msg: string)
    requires HasBatch(s, r)
    ensures
      var run := s.runs[r];
      Steps(At(s, r, s.items, Failing(msg, 0)), r, |run.batch| + 1)
      == State(MarkedFailed(s.items, Ids(run.batch), msg), s.locked, s.runs - {r})
  {
    var run, t := s.runs[r], At(s, r, s.items, Failing(msg, 0));
    FailingAlone(t, r, msg, |run.batch|);
    assert run.batch[..|run.batch|] == run.batch;
    RunEnds(t, r, MarkedFailed(s.items, Ids(run.batch), msg), Failing(msg, |run.batch|));
    assert t.runs - {r} == s.runs - {r};
  }

  /** The step behind the last record ends the run. */
  lemma RunEnds(s: State, r: nat, items: Items, phase: Phase)
    requires r in s.runs
    requires (phase.Failing? || phase.Closing?) && phase.next == |s.runs[r].batch|
    ensures Next(At(s, r, items, phase), Step(r)) == State(items, s.locked, s.runs - {r})
  {
    assert At(s, r, items, phase).runs - {r} == s.runs - {r};
  }

  lemma StepsJoin(t: State, u: State, v: State, r: nat, a: nat, b: nat)
    requires Steps(t, r, a) == u && Steps(u, r, b) == v
    ensures Steps(t, r, a + b) == v
  {
    StepsAdd(t, r, a, b);
  }

  lemma AnsweredAlone(s: State, r: nat, ds: seq<Decision>)
    requires HasBatch(s, r)
    ensures
      var run := s.runs[r];
      Steps(At(s, r, s.items, Deciding(ds, 0)), r, |ds| + 1 + |run.batch| + 1)
      == State(Settled(s.items, Ids(run.batch), ds, run.panel), s.locked, s.runs - {r})
  {
    var run := s.runs[r];
    var filed := Filed(s.items, Ids(run.batch), ds, run.panel);
    FirstLoop(s, r, ds);
    FiledKeys(s.items, Ids(run.batch), ds, run.panel);
    SecondLoop(s, r, filed, ds);
    SweptIsSettled(s.items, Ids(run.batch), ds, run.panel);
    StepsJoin(At(s, r, s.items, Deciding(ds, 0)), At(s, r, filed, Closing(ds, 0)),
              State(Swept(filed, Ids(run.batch), ds), s.locked, s.runs - {r}), r, |ds| + 1, |run.batch| + 1);
  }

  /** The step behind the last decision begins the closing loop. */
  lemma DecisionsEnd(s: State, r: nat, items: Items, ds: seq<Decision>)
    requires r in s.runs
    ensures Next(At(s, r, items, Deciding(ds, |ds|)), Step(r)) == At(s, r, items, Closing(ds, 0))
  {
  }

  lemma FirstLoop(s: State, r: nat, ds: seq<Decision>)
    requires HasBatch(s, r)
    ensures
      var run := s.runs[r];
      Steps(At(s, r, s.items, Deciding(ds, 0)), r, |ds| + 1)
      == At(s, r, Filed(s.items, Ids(run.batch), ds, run.panel), Closing(ds, 0))
  {
    var t, run := At(s, r, s.items, Deciding(ds, 0)), s.runs[r];
    var filed := Filed(s.items, Ids(run.batch), ds, run.panel);
    DecidingAlone(t, r, ds, |ds|);
    assert ds[..|ds|] == ds;
    assert At(t, r, filed, Deciding(ds, |ds|)) == At(s, r, filed, Deciding(ds, |ds|));
    DecisionsEnd(s, r, filed, ds);
  }

  lemma SecondLoop(s: State, r: nat, items: Items, ds: seq<Decision>)
    requires HasBatch(s, r) && items.Keys == s.items.Keys && FiledById(items)
    ensures
      var b := s.runs[r].batch;
      Steps(At(s, r, items, Closing(ds, 0)), r, |b| + 1) == State(Swept(items, Ids(b), ds), s.locked, s.runs - {r})
  {
    var t, b := At(s, r, items, Closing(ds, 0)), s.runs[r].batch;
    ClosingAlone(t, r, ds, |b|);
    assert b[..|b|] == b;
    RunEnds(t, r, Swept(items, Ids(b), ds), Closing(ds, |b|));
    assert t.runs - {r} == s.runs - {r};
  }
}
