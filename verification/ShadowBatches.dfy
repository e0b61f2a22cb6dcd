/** Shadow batches: the store (`internal/runtime/shadow_batch.go`) and the worker that
    interleaves with stops, retries, time-outs and restarts (`internal/api/shadow_batch.go`,
    `internal/api/shadow_batch_retry.go`).  Every critical section of the store is one atomic
    step; what happens between two sections of a worker is any sequence of other steps. */
module ShadowBatches {
  import opened Keys

  datatype Status = Pending | Running | Completed | Stopped | Failed

  datatype Batch = Batch(id: string, total: nat, status: Status, completed: nat, succeeded: nat, failed: nat,
                         stopped: nat, lastError: string)

  // ---------------------------------------------------------------- critical sections

  function Halted(x: Batch): Batch {
    if x.status != Pending && x.status != Running then x
    else x.(status := Stopped, stopped := x.stopped + (if x.total > x.completed then x.total - x.completed else 0))
  }

  /** A batch as it is put. */
  function New(id: string, total: nat): Batch { Batch(id, total, Pending, 0, 0, 0, 0, "") }

  predicate Retryable(x: Batch) { x.status == Failed || x.status == Stopped }

  function Reset(x: Batch): Batch {
    if !Retryable(x) then x
    else x.(status := Pending, completed := 0, succeeded := 0, failed := 0, stopped := 0, lastError := "")
  }

  predicate Interrupted(x: Batch) { x.status == Pending || x.status == Running }

  const RECOVERED: string := "batch recovered after process restart"

  function Recovered(x: Batch): Batch {
    if Interrupted(x) then x.(status := Stopped, lastError := RECOVERED) else x
  }

  function TimedOut(x: Batch): Batch { if x.status == Running then x.(status := Stopped) else x }

  function Recorded(x: Batch, error: Option<string>): Batch {
    if x.status == Stopped then x
    else if error.None? then x.(completed := x.completed + 1, succeeded := x.succeeded + 1)
    else x.(completed := x.completed + 1, failed := x.failed + 1, lastError := error.value)
  }

  function Finished(x: Batch): Batch {
    if x.status != Running then x else x.(status := if x.failed > 0 then Failed else Completed)
  }

  // ---------------------------------------------------------------- the store

  class Store {
    var items: map<string, Batch>

    constructor ()
      ensures items == map[]
    {
      items := map[];
    }

    method Put(x: Batch)
      modifies this
      ensures items == if x.id == "" then old(items) else old(items)[x.id := x]
    {
      if x.id == "" {
        return;
      }
      items := items[x.id := x];
    }

    method Apply(id: string, fn: Batch -> Batch) returns (ok: bool)
      modifies this
      ensures ok <==> id in old(items)
      ensures items == if id in old(items) then old(items)[id := fn(old(items)[id])] else old(items)
    {
      ok := id in items;
      if ok {
        items := items[id := fn(items[id])];
      }
    }

    /** A stop of a batch that is pending or running accounts for every review that has not
        run, so that one without earlier stops adds up to its total; any other batch, and
        every other entry, is left alone. */
    method Stop(id: string) returns (ok: bool)
      modifies this
      ensures ok <==> id in old(items)
      ensures items.Keys == old(items.Keys) && forall k :: k in items && k != id ==> items[k] == old(items)[k]
      ensures ok ==> items[id] == Halted(old(items)[id])
      ensures ok && Interrupted(old(items)[id]) ==> items[id].status == Stopped
      ensures ok && Interrupted(old(items)[id]) && old(items)[id].completed <= old(items)[id].total ==>
        items[id].completed + items[id].stopped == items[id].total + old(items)[id].stopped
      ensures ok && !Interrupted(old(items)[id]) ==> items[id] == old(items)[id]
    {
      ok := Apply(id, (x: Batch) =>
        if x.status == Pending || x.status == Running then
          var remaining := x.total - x.completed;
          x.(status := Stopped, stopped := if remaining > 0 then x.stopped + remaining else x.stopped)
        else x);
    }

    /** A retry makes a failed or stopped batch what it was when it was put; any other batch,
        and every other entry, is left alone, and the answer is the same. */
    method Retry(id: string) returns (ok: bool)
      modifies this
      ensures ok <==> id in old(items)
      ensures items.Keys == old(items.Keys) && forall k :: k in items && k != id ==> items[k] == old(items)[k]
      ensures ok ==> items[id] == Reset(old(items)[id])
      ensures ok && Retryable(old(items)[id]) ==> items[id] == New(old(items)[id].id, old(items)[id].total)
      ensures ok && !Retryable(old(items)[id]) ==> items[id] == old(items)[id]
    {
      ok := Apply(id, (x: Batch) =>
        if x.status == Failed || x.status == Stopped then
          x.(status := Pending, completed := 0, succeeded := 0, failed := 0, stopped := 0, lastError := "")
        else x);
    }

    method RecoverInterrupted() returns (n: nat)
      modifies this
      ensures items == map id | id in old(items) :: Recovered(old(items)[id])
      ensures n == |set id | id in old(items) && Interrupted(old(items)[id])|
    {
      ghost var before := items;
      ghost var found: set<string> := {};
      var todo := items.Keys;
      n := 0;
      while todo != {}
        invariant items.Keys == before.Keys && todo <= before.Keys
        invariant forall id :: id in before ==> items[id] == if id in todo then before[id] else Recovered(before[id])
        invariant found !! todo && n == |found|
        invariant forall id :: id in before && id !in todo ==> (id in found <==> Interrupted(before[id]))
        invariant found <= before.Keys
      {
        var id :| id in todo;
        todo := todo - {id};
        var x := items[id];
        if x.status == Pending || x.status == Running {
          items := items[id := x.(status := Stopped, lastError := RECOVERED)];
          found := found + {id};
          n := n + 1;
        }
      }
      assert found == set id | id in before && Interrupted(before[id]);
    }
  }

  // ---------------------------------------------------------------- the worker

  /** Where a worker is between two critical sections: about to mark the batch running, in
      front of review `next`, or running it. */
  datatype Phase = Starting | Before(next: nat) | InFlight(next: nat)

  /** One turn of a worker: the batch afterwards, and where the worker is, if it goes on. */
  function WorkerTurn(x: Batch, ph: Phase, timeout: bool, error: Option<string>): (Batch, Option<Phase>) {
    match ph
    case Starting => (x.(status := Running), Some(Before(0)))
    case Before(i) =>
      if i >= x.total then (Finished(x), None)
      else if timeout then (TimedOut(x), None)
      else if x.status == Stopped then (x, None)
      else (x, Some(InFlight(i)))
    case InFlight(i) => (Recorded(x, error), Some(Before(i + 1)))
  }

  /** The worker of one batch, as an object that is resumed once per critical section. */
  class Worker {
    const store: Store
    const id: string
    var phase: Option<Phase>

    constructor (store: Store, id: string)
      ensures this.store == store && this.id == id && phase == Some(Starting)
    {
      this.store, this.id, phase := store, id, Some(Starting);
    }

    method Turn(timeout: bool, error: Option<string>)
      requires phase.Some? && id in store.items
      modifies this, store
      ensures
        var x := old(store.items)[id];
        var (y, ph) := WorkerTurn(x, old(phase).value, timeout, error);
        store.items == old(store.items)[id := y] && phase == ph
    {
      var batch := store.items[id];
      assert store.items[id := batch] == store.items;
      match phase.value
      case Starting =>
        Begin();
        phase := Some(Before(0));
      case Before(i) =>
        if i >= batch.total {
          Finish();
          phase := None;
        } else if timeout {
          GiveUp();
          phase := None;
        } else if batch.status == Stopped {
          phase := None;
        } else {
          phase := Some(InFlight(i));
        }
      case InFlight(i) =>
        Record(error);
        phase := Some(Before(i + 1));
    }

    method Begin()
      requires id in store.items
      modifies store
      ensures store.items == old(store.items)[id := old(store.items)[id].(status := Running)]
    {
      var _ := store.Apply(id, (x: Batch) => x.(status := Running));
    }

    method Finish()
      requires id in store.items
      modifies store
      ensures store.items == old(store.items)[id := Finished(old(store.items)[id])]
    {
      var _ := store.Apply(id, (x: Batch) =>
        if x.status == Running then (if x.failed > 0 then x.(status := Failed) else x.(status := Completed)) else x);
    }

    method GiveUp()
      requires id in store.items
      modifies store
      ensures store.items == old(store.items)[id := TimedOut(old(store.items)[id])]
    {
      var _ := store.Apply(id, (x: Batch) => if x.status == Running then x.(status := Stopped) else x);
    }

    method Record(error: Option<string>)
      requires id in store.items
      modifies store
      ensures store.items == old(store.items)[id := Recorded(old(store.items)[id], error)]
    {
      var ok, message := error.None?, if error.Some? then error.value else "";
      var fn := (x: Batch) =>
        if x.status == Stopped then x
        else if ok then x.(completed := x.completed + 1, succeeded := x.succeeded + 1)
        else x.(completed := x.completed + 1, failed := x.failed + 1, lastError := message);
      ghost var was := store.items[id];
      assert fn(was) == Recorded(was, error);
      var _ := store.Apply(id, fn);
    }
  }

  // ---------------------------------------------------------------- interleavings on one batch

  /** One batch, its live workers, and the retry requests that have passed their check. */
  datatype State = State(batch: Batch, workers: map<nat, Phase>, asking: nat)

  datatype Event =
    | Turn(w: nat, timeout: bool, error: Option<string>)
    | Stop
    | AskRetry
    | DoRetry(w: nat)
    | Restart

  /** A retry request looks at the batch first and resets it later; the second step starts a
      worker whatever the batch has become in between. */
  function Next(s: State, e: Event): State {
    match e
    case Turn(w, timeout, error) =>
      if w !in s.workers then s
      else
        var (x, ph) := WorkerTurn(s.batch, s.workers[w], timeout, error);
        s.(batch := x, workers := if ph.Some? then s.workers[w := ph.value] else s.workers - {w})
    case Stop => s.(batch := Halted(s.batch))
    case AskRetry => if Retryable(s.batch) then s.(asking := s.asking + 1) else s
    case DoRetry(w) =>
      if s.asking == 0 || w in s.workers then s
      else State(Reset(s.batch), s.workers[w := Starting], s.asking - 1)
    case Restart => State(Recovered(s.batch), map[], 0)
  }

  function Run(s: State, es: seq<Event>): State
    decreases |es|
  {
    if es == [] then s else Run(Next(s, es[0]), es[1..])
  }

  function Launched(id: string, total: nat, w: nat): State {
    State(New(id, total), map[w := Starting], 0)
  }

  /** Whatever interleaves: every finished review is counted once as a success or a failure. */
  lemma {:induction false} CompletedIsTheSum(s: State, es: seq<Event>)
    requires s.batch.completed == s.batch.succeeded + s.batch.failed
    ensures var x := Run(s, es).batch; x.completed == x.succeeded + x.failed && x.total == s.batch.total
    decreases |es|
  {
    if es != [] {
      CompletedIsTheSum(Next(s, es[0]), es[1..]);
    }
  }

  // ---------------------------------------------------------------- one worker at a time

  /** What a batch promises to whoever reads it. */
  predicate Promise(x: Batch) {
    && x.completed == x.succeeded + x.failed
    && x.completed + x.stopped <= x.total
    && (x.status == Completed ==> x.completed == x.total && x.failed == 0)
    && (x.status == Failed ==> x.completed == x.total && x.failed >= 1)
  }

  predicate Settled(x: Batch) { !Interrupted(x) && Promise(x) }

  predicate Underway(x: Batch, done: nat) {
    (x.status == Running && x.completed == done && x.stopped == 0)
    || (x.status == Stopped && x.completed + x.stopped == x.total)
  }

  predicate WorkerOk(x: Batch, ph: Phase) {
    match ph
    case Starting => x.status == Pending && x.completed == 0 && x.stopped == 0
    case Before(i) => i <= x.total && Underway(x, i)
    case InFlight(i) => i < x.total && Underway(x, i)
  }

  predicate Inv(s: State) {
    && s.batch.total >= 1 && s.batch.completed == s.batch.succeeded + s.batch.failed
    && (forall a, b :: a in s.workers && b in s.workers ==> a == b)
    && (forall w :: w in s.workers ==> WorkerOk(s.batch, s.workers[w]))
    && (s.workers == map[] ==> Settled(s.batch))
  }

  lemma InvPromises(s: State)
    requires Inv(s)
    ensures Promise(s.batch)
  {
    if s.workers != map[] {
      var w :| w in s.workers;
      assert WorkerOk(s.batch, s.workers[w]);
    }
  }

  /** A stop must not come before the worker has begun; a retry must find the batch still
      retryable and no worker alive. */
  predicate Disciplined(s: State, e: Event) {
    match e
    case Stop => s.batch.status != Pending
    case DoRetry(w) => s.asking > 0 && w !in s.workers ==> s.workers == map[] && Retryable(s.batch)
    case _ => true
  }

  predicate DisciplinedRun(s: State, es: seq<Event>)
    decreases |es|
  {
    es == [] || (Disciplined(s, es[0]) && DisciplinedRun(Next(s, es[0]), es[1..]))
  }

  lemma TurnKeepsInv(s: State, e: Event)
    requires Inv(s) && e.Turn?
    ensures Inv(Next(s, e))
  {
    if e.w in s.workers {
      assert WorkerOk(s.batch, s.workers[e.w]);
      var (x, ph) := WorkerTurn(s.batch, s.workers[e.w], e.timeout, e.error);
      if ph.None? {
        assert s.workers - {e.w} == map[];
      } else {
        assert WorkerOk(x, ph.value);
        assert e.w in Next(s, e).workers;
      }
    }
  }

  lemma StepKeepsInv(s: State, e: Event)
    requires Inv(s) && Disciplined(s, e)
    ensures Inv(Next(s, e))
  {
    match e
    case Turn(_, _, _) => TurnKeepsInv(s, e);
    case Stop =>
    case AskRetry =>
    case DoRetry(w) =>
      if s.asking > 0 && w !in s.workers {
        assert w in Next(s, e).workers;
      }
    case Restart => InvPromises(s);
  }

  /** In every disciplined run a batch keeps its promise: `Completed + Stopped <= Total`, a
      completed batch ran every review without a failure, a failed one ran every review with
      at least one. */
  lemma {:induction false} RunKeepsPromise(s: State, es: seq<Event>)
    requires Inv(s) && DisciplinedRun(s, es)
    ensures Inv(Run(s, es)) && Promise(Run(s, es).batch)
    decreases |es|
  {
    if es == [] {
      InvPromises(s);
    } else {
      StepKeepsInv(s, es[0]);
      RunKeepsPromise(Next(s, es[0]), es[1..]);
    }
  }

  lemma LaunchedKeepsPromise(id: string, total: nat, w: nat, es: seq<Event>)
    requires total >= 1 && DisciplinedRun(Launched(id, total, w), es)
    ensures Promise(Run(Launched(id, total, w), es).batch)
  {
    assert w in Launched(id, total, w).workers;
    RunKeepsPromise(Launched(id, total, w), es);
  }

  predicate Accounted(x: Batch) { x.status == Stopped && x.completed + x.stopped == x.total }

  /** A stop accounts for every review, and the account is final until the next retry,
      whatever the worker it caught still does. */
  lemma {:induction false} StopIsFinal(s: State, es: seq<Event>)
    requires Inv(s) && Accounted(s.batch) && forall e :: e in es ==> !e.DoRetry?
    ensures Accounted(Run(s, es).batch)
    decreases |es|
  {
    if es != [] {
      assert !es[0].DoRetry?;
      StepKeepsInv(s, es[0]);
      StopIsFinal(Next(s, es[0]), es[1..]);
    }
  }

  lemma StopAccounts(s: State, es: seq<Event>)
    requires Inv(s) && s.batch.status == Running && forall e :: e in es ==> !e.DoRetry?
    ensures Accounted(Run(Next(s, Stop), es).batch)
  {
    assert s.workers != map[];
    var w :| w in s.workers;
    assert WorkerOk(s.batch, s.workers[w]);
    StepKeepsInv(s, Stop);
    StopIsFinal(Next(s, Stop), es);
  }

  // ---------------------------------------------------------------- the discipline is exact

  function Plain(w: nat): Event { Turn(w, false, None) }

  /** Worker `w` looks and records, `k` times. */
  function Rounds(w: nat, k: nat): seq<Event> {
    if k == 0 then [] else [Plain(w), Plain(w)] + Rounds(w, k - 1)
  }

  predicate OnlyTurns(es: seq<Event>) { forall e :: e in es ==> e.Turn? }

  lemma {:induction false} RunConcat(s: State, a: seq<Event>, b: seq<Event>)
    ensures Run(s, a + b) == Run(Run(s, a), b)
    decreases |a|
  {
    if a == [] {
      assert a + b == b;
    } else {
      assert (a + b)[1..] == a[1..] + b;
      RunConcat(Next(s, a[0]), a[1..], b);
    }
  }

  /** `t` is `s` after worker `w` has counted `k` more reviews and stands in front of `next`. */
  predicate CountedOn(s: State, t: State, w: nat, k: nat, next: nat) {
    && t.batch.completed == s.batch.completed + k && t.batch.stopped == s.batch.stopped
    && t.batch.status == s.batch.status && t.batch.total == s.batch.total
    && t.workers == s.workers[w := Before(next)]
  }

  lemma OneRound(s: State, w: nat, i: nat)
    requires w in s.workers && s.workers[w] == Before(i) && i < s.batch.total && s.batch.status != Stopped
    ensures CountedOn(s, Run(s, [Plain(w), Plain(w)]), w, 1, i + 1)
  {
    var looked := Next(s, Plain(w));
    var once := Next(looked, Plain(w));
    assert [Plain(w), Plain(w)][1..] == [Plain(w)];
    assert Run(looked, [Plain(w)]) == Run(once, []);
  }

  lemma {:induction false} RoundsAreTurns(w: nat, k: nat)
    ensures OnlyTurns(Rounds(w, k))
  {
    if k > 0 {
      RoundsAreTurns(w, k - 1);
    }
  }

  lemma CountsAdd(s: State, once: State, t: State, w: nat, i: nat, k: nat)
    requires CountedOn(s, once, w, 1, i + 1) && CountedOn(once, t, w, k, i + 1 + k)
    ensures CountedOn(s, t, w, k + 1, i + 1 + k)
  {
    assert s.workers[w := Before(i + 1)][w := Before(i + 1 + k)] == s.workers[w := Before(i + 1 + k)];
  }

  /** A worker in front of review `i` that nobody stops counts `k` more reviews. */
  lemma {:induction false} RoundsCount(s: State, w: nat, i: nat, k: nat)
    requires w in s.workers && s.workers[w] == Before(i) && i + k <= s.batch.total && s.batch.status != Stopped
    ensures CountedOn(s, Run(s, Rounds(w, k)), w, k, i + k)
    decreases k
  {
    if k == 0 {
      assert s.workers[w := Before(i)] == s.workers;
    } else {
      var once := Run(s, [Plain(w), Plain(w)]);
      OneRound(s, w, i);
      RoundsCount(once, w, i + 1, k - 1);
      RunConcat(s, [Plain(w), Plain(w)], Rounds(w, k - 1));
      CountsAdd(s, once, Run(s, Rounds(w, k)), w, i, k - 1);
    }
  }

  /** A worker that begins on a batch counts `k` reviews on top of what is there. */
  lemma BeginAndCount(s: State, w: nat, k: nat) returns (es: seq<Event>)
    requires w in s.workers && s.workers[w] == Starting && k <= s.batch.total
    ensures
      var t := Run(s, es);
      && OnlyTurns(es) && t.batch.status == Running && t.batch.total == s.batch.total
      && t.batch.completed == s.batch.completed + k && t.batch.stopped == s.batch.stopped
      && t.workers == s.workers[w := Before(k)]
  {
    es := [Plain(w)] + Rounds(w, k);
    RoundsAreTurns(w, k);
    RoundsCount(Next(s, Plain(w)), w, 0, k);
    assert es[1..] == Rounds(w, k);
  }

  /** A worker that has a review left can count at least one more on a running batch. */
  lemma CountOnce(s: State, w: nat) returns (es: seq<Event>)
    requires w in s.workers && s.batch.status == Running && s.batch.total >= 1
    requires s.workers[w].Before? ==> s.workers[w].next < s.batch.total
    ensures
      var t := Run(s, es);
      OnlyTurns(es) && t.batch.completed == s.batch.completed + 1 && t.batch.total == s.batch.total
  {
    match s.workers[w]
    case Starting => es := BeginAndCount(s, w, 1);
    case Before(i) =>
      RoundsAreTurns(w, 1);
      RoundsCount(s, w, i, 1);
      es := Rounds(w, 1);
    case InFlight(i) =>
      es := [Plain(w)];
      assert Run(Next(s, es[0]), []) == Next(s, es[0]);
  }

  lemma EarlyStopBreaks(s: State) returns (es: seq<Event>)
    requires Inv(s) && s.batch.status == Pending
    ensures OnlyTurns(es) && !Promise(Run(Next(s, Stop), es).batch)
  {
    var w :| w in s.workers;
    assert WorkerOk(s.batch, s.workers[w]);
    es := BeginAndCount(Next(s, Stop), w, 1);
  }

  lemma RetryOfCompletedBreaks(s: State, v: nat) returns (es: seq<Event>)
    requires Inv(s) && s.asking > 0 && s.workers == map[] && !Retryable(s.batch)
    ensures OnlyTurns(es) && !Promise(Run(Next(s, DoRetry(v)), es).batch)
  {
    es := BeginAndCount(Next(s, DoRetry(v)), v, 1);
  }

  lemma OverlappingRetryBreaks(s: State, v: nat, u: nat) returns (es: seq<Event>)
    requires Inv(s) && s.asking > 0 && v !in s.workers && u in s.workers
    ensures OnlyTurns(es) && !Promise(Run(Next(s, DoRetry(v)), es).batch)
  {
    assert WorkerOk(s.batch, s.workers[u]);
    var t := Next(s, DoRetry(v));
    assert t.workers[u] == s.workers[u] && t.batch.total == s.batch.total;
    var n := s.batch.total;
    if s.workers[u] == Before(n) {
      if t.batch.completed == n {
        es := BeginAndCount(t, v, 1);
      } else {
        var begun := BeginAndCount(t, v, 0);
        RunConcat(t, begun, [Plain(u)]);
        es := begun + [Plain(u)];
        var b := Run(t, begun);
        assert Run(b, [Plain(u)]) == Run(Next(b, Plain(u)), []) == Next(b, Plain(u));
      }
    } else {
      var first := BeginAndCount(t, v, n);
      var last := CountOnce(Run(t, first), u);
      RunConcat(t, first, last);
      es := first + last;
    }
  }

  /** Whatever the workers do next, the batch keeps its promise. */
  ghost predicate SafeStep(s: State, e: Event) {
    forall es :: OnlyTurns(es) ==> Promise(Run(Next(s, e), es).batch)
  }

  lemma {:induction false} TurnsAreDisciplined(s: State, es: seq<Event>)
    requires OnlyTurns(es)
    ensures DisciplinedRun(s, es)
    decreases |es|
  {
    if es != [] {
      assert es[0].Turn?;
      TurnsAreDisciplined(Next(s, es[0]), es[1..]);
    }
  }

  /** A step is safe if and only if it is disciplined: every stop of a batch that has not
      begun, and every retry beside a live worker or on a batch that is no longer retryable,
      lets the workers alone break the promise. */
  lemma StepIsSafeIff(s: State, e: Event)
    requires Inv(s)
    ensures Disciplined(s, e) <==> SafeStep(s, e)
  {
    if Disciplined(s, e) {
      StepKeepsInv(s, e);
      forall es | OnlyTurns(es) ensures Promise(Run(Next(s, e), es).batch) {
        TurnsAreDisciplined(Next(s, e), es);
        RunKeepsPromise(Next(s, e), es);
      }
    } else {
      var es;
      if e.Stop? {
        es := EarlyStopBreaks(s);
      } else if s.workers == map[] {
        es := RetryOfCompletedBreaks(s, e.w);
      } else {
        var u :| u in s.workers;
        es := OverlappingRetryBreaks(s, e.w, u);
      }
    }
  }

  // ---------------------------------------------------------------- an undisturbed worker

  /** Worker `w` runs the reviews with the given outcomes. */
  function Outcomes(w: nat, os: seq<Option<string>>): seq<Event> {
    if os == [] then [] else [Plain(w), Turn(w, false, os[0])] + Outcomes(w, os[1..])
  }

  function Errors(os: seq<Option<string>>): nat {
    if os == [] then 0 else (if os[0].Some? then 1 else 0) + Errors(os[1..])
  }

  lemma {:induction false} ErrorsAtMost(os: seq<Option<string>>)
    ensures Errors(os) <= |os|
    ensures Errors(os) == 0 <==> forall o :: o in os ==> o.None?
  {
    if os != [] {
      ErrorsAtMost(os[1..]);
      assert os[0] in os && os[0].None? != os[0].Some?;
      assert forall o :: o in os[1..] ==> o in os;
      assert forall o :: o in os ==> o == os[0] || o in os[1..];
    }
  }

  lemma OneOutcome(s: State, w: nat, i: nat, o: Option<string>) returns (t: State)
    requires w in s.workers && s.workers[w] == Before(i) && i < s.batch.total && s.batch.status == Running
    ensures t == Run(s, [Plain(w), Turn(w, false, o)])
    ensures t.batch.failed == s.batch.failed + (if o.Some? then 1 else 0)
    ensures t.batch.succeeded == s.batch.succeeded + (if o.Some? then 0 else 1)
    ensures t.batch.status == Running && t.batch.total == s.batch.total && t.batch.stopped == s.batch.stopped
    ensures w in t.workers && t.workers[w] == Before(i + 1)
  {
    var looked := Next(s, Plain(w));
    t := Next(looked, Turn(w, false, o));
    assert [Plain(w), Turn(w, false, o)][1..] == [Turn(w, false, o)];
    assert Run(looked, [Turn(w, false, o)]) == Run(t, []);
  }

  lemma {:induction false} OutcomesCount(s: State, w: nat, i: nat, os: seq<Option<string>>)
    requires w in s.workers && s.workers[w] == Before(i) && i + |os| <= s.batch.total && s.batch.status == Running
    ensures
      var t := Run(s, Outcomes(w, os));
      && t.batch.failed == s.batch.failed + Errors(os)
      && t.batch.succeeded == s.batch.succeeded + |os| - Errors(os)
      && t.batch.status == Running && t.batch.total == s.batch.total && t.batch.stopped == s.batch.stopped
      && w in t.workers && t.workers[w] == Before(i + |os|)
    decreases |os|
  {
    if os != [] {
      var once := OneOutcome(s, w, i, os[0]);
      OutcomesCount(once, w, i + 1, os[1..]);
      RunConcat(s, [Plain(w), Turn(w, false, os[0])], Outcomes(w, os[1..]));
    }
  }

  /** Left alone, a worker counts every review by its outcome and ends the batch failed if
      and only if some review failed. */
  lemma UndisturbedRun(id: string, w: nat, os: seq<Option<string>>)
    ensures
      var t := Run(Launched(id, |os|, w), [Plain(w)] + Outcomes(w, os) + [Plain(w)]);
      && t.batch.failed == Errors(os) && t.batch.succeeded == |os| - Errors(os) && t.batch.stopped == 0
      && (t.batch.status == Failed <==> exists o :: o in os && o.Some?)
      && (t.batch.status == Completed <==> forall o :: o in os ==> o.None?)
      && w !in t.workers
  {
    var s := Launched(id, |os|, w);
    var begun := Next(s, Plain(w));
    OutcomesCount(begun, w, 0, os);
    ErrorsAtMost(os);
    var es := [Plain(w)] + Outcomes(w, os);
    assert es[1..] == Outcomes(w, os);
    var done := Run(s, es);
    RunConcat(s, es, [Plain(w)]);
    assert Run(done, [Plain(w)]) == Run(Next(done, Plain(w)), []);
  }

  // ---------------------------------------------------------------- in plain values

  /** What a worker writes at each of its turns: it marks the batch running whatever it was; at
      the end it closes a running batch as failed or completed by its failures; out of time it
      stops a running one as it is; a stopped one it leaves; and it counts a finished review on
      its side, with the error of a failure, unless the batch has been stopped. */
  lemma WorkerWrites(x: Batch, i: nat, timeout: bool, error: Option<string>)
    ensures WorkerTurn(x, Starting, timeout, error) == (x.(status := Running), Some(Before(0)))
    ensures
      var (y, on) := WorkerTurn(x, Before(i), timeout, error);
      && (i < x.total && !timeout && x.status != Stopped ==> y == x && on == Some(InFlight(i)))
      && (i >= x.total || timeout || x.status == Stopped ==> on == None && y == x.(status := y.status))
      && (i >= x.total ==> y.status == if x.status != Running then x.status else if x.failed > 0 then Failed else Completed)
      && (i < x.total && timeout ==> y.status == if x.status == Running then Stopped else x.status)
      && (i < x.total && !timeout ==> y.status == x.status)
    ensures
      var (y, on) := WorkerTurn(x, InFlight(i), timeout, error);
      && on == Some(Before(i + 1))
      && (x.status == Stopped ==> y == x)
      && (x.status != Stopped && error.None? ==> y == x.(completed := x.completed + 1, succeeded := x.succeeded + 1))
      && (x.status != Stopped && error.Some? ==>
            y == x.(completed := x.completed + 1, failed := x.failed + 1, lastError := error.value))
  {
  }

  /** What the operator and a restart write: a stop and a restart reach pending and running
      batches, of which only the stop accounts for what has not run; a retry reaches failed and
      stopped ones and puts every count back. */
  lemma OperatorWrites(s: State, w: nat)
    ensures
      var x, y := s.batch, Next(s, Stop).batch;
      if x.status in {Pending, Running}
      then y == x.(status := Stopped, stopped := if x.completed < x.total then x.stopped + x.total - x.completed else x.stopped)
      else y == x
    ensures
      var x, y := s.batch, Next(s, Restart).batch;
      && y == (if x.status in {Pending, Running}
               then x.(status := Stopped, lastError := "batch recovered after process restart") else x)
      && Next(s, Restart).workers == map[] && Next(s, Restart).asking == 0
    ensures Next(s, AskRetry) == if s.batch.status in {Failed, Stopped} then s.(asking := s.asking + 1) else s
    ensures s.asking > 0 && w !in s.workers ==>
      var x, t := s.batch, Next(s, DoRetry(w));
      && t.workers == s.workers[w := Starting] && t.asking == s.asking - 1
      && t.batch == if x.status in {Failed, Stopped} then Batch(x.id, x.total, Pending, 0, 0, 0, 0, "") else x
  {
  }

  lemma RecoveryWrites(x: Batch)
    ensures Recovered(x) ==
      if x.status in {Pending, Running} then x.(status := Stopped, lastError := "batch recovered after process restart") else x
    ensures Interrupted(x) <==> x.status in {Pending, Running}
    ensures New(x.id, x.total) == Batch(x.id, x.total, Pending, 0, 0, 0, 0, "")
  {
  }
}
