/** Probe batches (`internal/api/native_probe_batch.go`): one job fans out to a goroutine per
    target, four of which may probe at a time; results are recorded under the mutex in
    whatever order the goroutines get there. */
module ProbeBatch {
  import opened Keys
  import opened CatalogModel

  datatype Target = Target(provider: string, model: string)
  datatype Result = Result(target: Target, ok: bool)
  datatype JobStatus = Running | Completed
  datatype Summary = Summary(id: string, total: nat, completed: nat, failed: nat, status: JobStatus)
  datatype Job = Job(summary: Summary, results: seq<Result>)

  const SLOTS: nat := 4
  const KEPT: nat := 100

  // ---------------------------------------------------------------- which targets are taken

  function TargetKey(t: Target): string { t.provider + "\0" + t.model }

  predicate DistinctTargets(ts: seq<Target>) {
    forall i, j :: 0 <= i < j < |ts| ==> TargetKey(ts[i]) != TargetKey(ts[j])
  }

  predicate Probeable(models: seq<Model>, configs: set<string>, t: Target) {
    t.provider != "" && t.model != "" && t.provider in configs
    && exists i :: 0 <= i < |models| && models[i].provider == t.provider && models[i].id == t.model
                   && models[i].status == Active
  }

  predicate Valid(models: seq<Model>, configs: set<string>, ts: seq<Target>) {
    1 <= |ts| <= 50 && DistinctTargets(ts) && forall i :: 0 <= i < |ts| ==> Probeable(models, configs, ts[i])
  }

  method Validate(models: seq<Model>, configs: set<string>, ts: seq<Target>) returns (valid: Option<seq<Target>>)
    ensures valid == if Valid(models, configs, ts) then Some(ts) else None
  {
    if |ts| == 0 || |ts| > 50 {
      return None;
    }
    var seen: set<string> := {};
    var kept: seq<Target> := [];
    for n := 0 to |ts|
      invariant kept == ts[..n]
      invariant forall i :: 0 <= i < n ==> TargetKey(ts[i]) in seen && Probeable(models, configs, ts[i])
      invariant forall k :: k in seen ==> exists i :: 0 <= i < n && TargetKey(ts[i]) == k
      invariant DistinctTargets(ts[..n])
    {
      var t := ts[n];
      var key := TargetKey(t);
      if t.provider == "" || t.model == "" || key in seen {
        return None;
      }
      seen := seen + {key};
      var found := false;
      for i := 0 to |models|
        invariant !found
        invariant forall j :: 0 <= j < i ==>
          !(models[j].provider == t.provider && models[j].id == t.model && models[j].status == Active)
      {
        if models[i].provider == t.provider && models[i].id == t.model && models[i].status == Active {
          found := true;
          break;
        }
      }
      if !found || t.provider !in configs {
        assert !Probeable(models, configs, ts[n]);
        return None;
      }
      kept := kept + [t];
    }
    assert ts[..|ts|] == ts;
    valid := Some(kept);
  }

  // ---------------------------------------------------------------- critical sections

  function Started(id: string, total: nat): Job { Job(Summary(id, total, 0, 0, Running), []) }

  function Recorded(j: Job, r: Result): Job {
    Job(j.summary.(completed := j.summary.completed + 1, failed := j.summary.failed + (if r.ok then 0 else 1)),
        j.results + [r])
  }

  function Closed(j: Job): Job { j.(summary := j.summary.(status := Completed)) }

  function Last(h: seq<Summary>, n: nat): seq<Summary> { if |h| > n then h[|h| - n..] else h }

  class Runtime {
    var jobs: map<string, Job>
    var history: seq<Summary>

    /** The history is what the file of an earlier process held. */
    constructor (loaded: seq<Summary>)
      ensures jobs == map[] && history == loaded
    {
      jobs, history := map[], loaded;
    }

    method Start(id: string, targets: seq<Target>)
      modifies this`jobs
      ensures jobs == old(jobs)[id := Started(id, |targets|)]
    {
      jobs := jobs[id := Job(Summary(id, |targets|, 0, 0, Running), [])];
    }

    method Record(id: string, r: Result)
      requires id in jobs
      modifies this`jobs
      ensures jobs == old(jobs)[id := Recorded(old(jobs)[id], r)]
    {
      var job := jobs[id];
      job := job.(summary := job.summary.(completed := job.summary.completed + 1));
      if !r.ok {
        job := job.(summary := job.summary.(failed := job.summary.failed + 1));
      }
      job := job.(results := job.results + [r]);
      jobs := jobs[id := job];
    }

    method Finish(id: string)
      requires id in jobs
      modifies this
      ensures jobs == old(jobs)[id := Closed(old(jobs)[id])]
      ensures history == Last(old(history) + [Closed(old(jobs)[id]).summary], KEPT)
    {
      var job := jobs[id];
      job := job.(summary := job.summary.(status := Completed));
      jobs := jobs[id := job];
      history := history + [job.summary];
      if |history| > KEPT {
        history := history[|history| - KEPT..];
      }
    }
  }

  // ---------------------------------------------------------------- interleavings

  /** A goroutine: in front of the semaphore, probing, holding a result, or done. */
  datatype Phase = Waiting | Probing | Probed(ok: bool) | Done(ok: bool)

  /** The goroutines of one job and the slots of its semaphore that are taken. */
  datatype Crew = Crew(targets: seq<Target>, phases: seq<Phase>, taken: nat)

  /** `finished` is the log of all jobs that have finished since the process started. */
  datatype State = State(jobs: map<string, Job>, crews: map<string, Crew>, history: seq<Summary>,
                         finished: seq<Summary>)

  datatype Event =
    | Start(id: string, targets: seq<Target>)
    | Acquire(id: string, i: nat)
    | Release(id: string, i: nat, ok: bool)
    | Record(id: string, i: nat)
    | Finish(id: string)

  predicate Enabled(s: State, e: Event) {
    match e
    case Start(id, targets) => id !in s.jobs && 1 <= |targets| <= 50 && DistinctTargets(targets)
    case Acquire(id, i) =>
      id in s.crews && i < |s.crews[id].phases| && s.crews[id].phases[i] == Waiting && s.crews[id].taken < SLOTS
    case Release(id, i, _) =>
      id in s.crews && i < |s.crews[id].phases| && s.crews[id].phases[i] == Probing && s.crews[id].taken > 0
    case Record(id, i) =>
      id in s.crews && id in s.jobs && i < |s.crews[id].phases| && i < |s.crews[id].targets|
      && s.crews[id].phases[i].Probed?
    case Finish(id) =>
      id in s.crews && id in s.jobs && s.jobs[id].summary.status == Running
      && forall i :: 0 <= i < |s.crews[id].phases| ==> s.crews[id].phases[i].Done?
  }

  function CrewStep(c: Crew, i: nat, ph: Phase, taken: nat): Crew
    requires i < |c.phases|
  {
    c.(phases := c.phases[i := ph], taken := taken)
  }

  function Next(s: State, e: Event): State {
    if !Enabled(s, e) then s
    else
      match e
      case Start(id, targets) =>
        s.(jobs := s.jobs[id := Started(id, |targets|)],
           crews := s.crews[id := Crew(targets, seq(|targets|, _ => Waiting), 0)])
      case Acquire(id, i) =>
        var c := s.crews[id];
        s.(crews := s.crews[id := CrewStep(c, i, Probing, c.taken + 1)])
      case Release(id, i, ok) =>
        var c := s.crews[id];
        s.(crews := s.crews[id := CrewStep(c, i, Probed(ok), c.taken - 1)])
      case Record(id, i) =>
        var c := s.crews[id];
        s.(crews := s.crews[id := CrewStep(c, i, Done(c.phases[i].ok), c.taken)],
           jobs := s.jobs[id := Recorded(s.jobs[id], Result(c.targets[i], c.phases[i].ok))])
      case Finish(id) =>
        var j := Closed(s.jobs[id]);
        s.(jobs := s.jobs[id := j], history := Last(s.history + [j.summary], KEPT),
           finished := s.finished + [j.summary])
  }

  function Run(s: State, es: seq<Event>): State
    decreases |es|
  {
    if es == [] then s else Run(Next(s, es[0]), es[1..])
  }

  // ---------------------------------------------------------------- the invariant of one job

  function InFlight(ps: seq<Phase>): set<nat> { set i: nat | i < |ps| && ps[i] == Probing }

  function DoneIn(ps: seq<Phase>): set<nat> { set i: nat | i < |ps| && ps[i].Done? }

  function BadIn(rs: seq<Result>): nat {
    if rs == [] then 0 else BadIn(rs[..|rs| - 1]) + (if rs[|rs| - 1].ok then 0 else 1)
  }

  predicate CrewOk(c: Crew) {
    && |c.phases| == |c.targets| && 1 <= |c.targets| <= 50 && DistinctTargets(c.targets)
    && c.taken == |InFlight(c.phases)| <= SLOTS
  }

  predicate OneEach(rs: seq<Result>) { forall p, q :: 0 <= p < q < |rs| ==> rs[p].target != rs[q].target }

  predicate DoneHaveResults(c: Crew, rs: seq<Result>)
    requires |c.phases| == |c.targets|
  {
    forall i :: 0 <= i < |c.phases| && c.phases[i].Done? ==> Result(c.targets[i], c.phases[i].ok) in rs
  }

  predicate IsResultOf(c: Crew, r: Result)
    requires |c.phases| == |c.targets|
  {
    exists i :: 0 <= i < |c.phases| && c.phases[i].Done? && r == Result(c.targets[i], c.phases[i].ok)
  }

  /** The results are those of the goroutines that are done, one each. */
  predicate ResultsMatch(c: Crew, rs: seq<Result>)
    requires |c.phases| == |c.targets|
  {
    |rs| == |DoneIn(c.phases)| && OneEach(rs) && DoneHaveResults(c, rs) && forall r :: r in rs ==> IsResultOf(c, r)
  }

  predicate CountsOk(j: Job, total: nat) {
    && j.summary.total == total && j.summary.completed == |j.results| && j.summary.failed == BadIn(j.results)
  }

  predicate JobOk(id: string, j: Job, c: Crew) {
    && CrewOk(c) && ResultsMatch(c, j.results) && CountsOk(j, |c.targets|) && j.summary.id == id
    && (j.summary.status == Completed ==> forall i :: 0 <= i < |c.phases| ==> c.phases[i].Done?)
  }

  predicate AllJobsOk(jobs: map<string, Job>, crews: map<string, Crew>) {
    jobs.Keys == crews.Keys && forall id :: id in jobs ==> JobOk(id, jobs[id], crews[id])
  }

  ghost predicate Inv(s: State, loaded: seq<Summary>) {
    && AllJobsOk(s.jobs, s.crews)
    && (s.finished == [] ==> s.history == loaded)
    && (s.finished != [] ==> s.history == Last(loaded + s.finished, KEPT))
  }

  // ---------------------------------------------------------------- steps

  lemma AcquireOk(c: Crew, i: nat)
    requires CrewOk(c) && i < |c.phases| && c.phases[i] == Waiting && c.taken < SLOTS
    ensures CrewOk(CrewStep(c, i, Probing, c.taken + 1))
    ensures DoneIn(CrewStep(c, i, Probing, c.taken + 1).phases) == DoneIn(c.phases)
  {
    assert InFlight(c.phases[i := Probing]) == InFlight(c.phases) + {i};
  }

  lemma ReleaseOk(c: Crew, i: nat, ok: bool)
    requires CrewOk(c) && i < |c.phases| && c.phases[i] == Probing
    ensures c.taken > 0
    ensures CrewOk(CrewStep(c, i, Probed(ok), c.taken - 1))
    ensures DoneIn(CrewStep(c, i, Probed(ok), c.taken - 1).phases) == DoneIn(c.phases)
  {
    assert i in InFlight(c.phases);
    assert InFlight(c.phases[i := Probed(ok)]) == InFlight(c.phases) - {i};
  }

  lemma RecordOk(c: Crew, i: nat)
    requires CrewOk(c) && i < |c.phases| && c.phases[i].Probed?
    ensures CrewOk(CrewStep(c, i, Done(c.phases[i].ok), c.taken))
    ensures |DoneIn(CrewStep(c, i, Done(c.phases[i].ok), c.taken).phases)| == |DoneIn(c.phases)| + 1
  {
    assert InFlight(c.phases[i := Done(c.phases[i].ok)]) == InFlight(c.phases);
    assert DoneIn(c.phases[i := Done(c.phases[i].ok)]) == DoneIn(c.phases) + {i};
  }

  lemma StaysResult(c: Crew, i: nat, ph: Phase, taken: nat, r: Result)
    requires CrewOk(c) && i < |c.phases| && !c.phases[i].Done? && IsResultOf(c, r)
    ensures IsResultOf(CrewStep(c, i, ph, taken), r)
    ensures r.target != c.targets[i]
  {
    var k :| 0 <= k < |c.phases| && c.phases[k].Done? && r == Result(c.targets[k], c.phases[k].ok);
    assert CrewStep(c, i, ph, taken).phases[k] == c.phases[k];
  }

  lemma RecordMatches(c: Crew, i: nat, rs: seq<Result>)
    requires CrewOk(c) && i < |c.phases| && c.phases[i].Probed? && ResultsMatch(c, rs)
    ensures ResultsMatch(CrewStep(c, i, Done(c.phases[i].ok), c.taken), rs + [Result(c.targets[i], c.phases[i].ok)])
  {
    var d := CrewStep(c, i, Done(c.phases[i].ok), c.taken);
    var r := Result(c.targets[i], c.phases[i].ok);
    RecordOk(c, i);
    forall x | x in rs ensures IsResultOf(d, x) && x.target != r.target {
      StaysResult(c, i, Done(c.phases[i].ok), c.taken, x);
    }
    assert d.phases[i].Done? && IsResultOf(d, r);
    assert r in rs + [r];
    assert forall p :: 0 <= p < |rs| ==> rs[p] in rs;
  }

  lemma LastOfLast(h: seq<Summary>, x: Summary, n: nat)
    requires n > 0
    ensures Last(Last(h, n) + [x], n) == Last(h + [x], n)
  {
  }

  lemma OneJob(jobs: map<string, Job>, crews: map<string, Crew>, id: string, j: Job, c: Crew)
    requires AllJobsOk(jobs, crews) && JobOk(id, j, c)
    ensures AllJobsOk(jobs[id := j], crews[id := c])
  {
  }

  lemma StartedOk(id: string, targets: seq<Target>)
    requires 1 <= |targets| <= 50 && DistinctTargets(targets)
    ensures JobOk(id, Started(id, |targets|), Crew(targets, seq(|targets|, _ => Waiting), 0))
  {
    var ps := seq(|targets|, _ => Waiting);
    assert InFlight(ps) == {} && DoneIn(ps) == {};
  }

  lemma RecordedOk(id: string, j: Job, c: Crew, i: nat)
    requires JobOk(id, j, c) && i < |c.phases| && c.phases[i].Probed?
    ensures JobOk(id, Recorded(j, Result(c.targets[i], c.phases[i].ok)),
                  CrewStep(c, i, Done(c.phases[i].ok), c.taken))
  {
    RecordOk(c, i);
    RecordMatches(c, i, j.results);
    var rs := j.results + [Result(c.targets[i], c.phases[i].ok)];
    assert rs[..|rs| - 1] == j.results;
  }

  lemma MovedOk(id: string, j: Job, c: Crew, i: nat, ph: Phase, taken: nat)
    requires JobOk(id, j, c) && i < |c.phases| && !c.phases[i].Done? && !ph.Done?
    requires CrewOk(CrewStep(c, i, ph, taken))
    ensures JobOk(id, j, CrewStep(c, i, ph, taken))
  {
    WaitingMatches(c, i, ph, taken, j.results);
  }

  lemma ItsJobStaysOk(s: State, e: Event)
    requires AllJobsOk(s.jobs, s.crews) && Enabled(s, e)
    ensures
      var t := Next(s, e);
      e.id in t.jobs && e.id in t.crews && JobOk(e.id, t.jobs[e.id], t.crews[e.id])
  {
    var id := e.id;
    match e
    case Start(_, targets) => StartedOk(id, targets);
    case Acquire(_, i) =>
      AcquireOk(s.crews[id], i);
      MovedOk(id, s.jobs[id], s.crews[id], i, Probing, s.crews[id].taken + 1);
    case Release(_, i, ok) =>
      ReleaseOk(s.crews[id], i, ok);
      MovedOk(id, s.jobs[id], s.crews[id], i, Probed(ok), s.crews[id].taken - 1);
    case Record(_, i) => RecordedOk(id, s.jobs[id], s.crews[id], i);
    case Finish(_) =>
  }

  lemma OnlyItsJobMoves(s: State, e: Event)
    requires s.jobs.Keys == s.crews.Keys && Enabled(s, e)
    ensures
      var t := Next(s, e);
      && e.id in t.jobs && t.jobs == s.jobs[e.id := t.jobs[e.id]]
      && e.id in t.crews && t.crews == s.crews[e.id := t.crews[e.id]]
  {
  }

  lemma JobsStayOk(s: State, e: Event)
    requires AllJobsOk(s.jobs, s.crews) && Enabled(s, e)
    ensures AllJobsOk(Next(s, e).jobs, Next(s, e).crews)
  {
    OnlyItsJobMoves(s, e);
    ItsJobStaysOk(s, e);
    var t := Next(s, e);
    OneJob(s.jobs, s.crews, e.id, t.jobs[e.id], t.crews[e.id]);
  }

  lemma StepKeepsInv(s: State, e: Event, loaded: seq<Summary>)
    requires Inv(s, loaded)
    ensures Inv(Next(s, e), loaded)
  {
    if Enabled(s, e) {
      JobsStayOk(s, e);
      if e.Finish? {
        HistoryExtends(loaded, s.finished, s.history, Closed(s.jobs[e.id]).summary);
      }
    }
  }

  lemma HistoryExtends(loaded: seq<Summary>, finished: seq<Summary>, history: seq<Summary>, x: Summary)
    requires history == if finished == [] then loaded else Last(loaded + finished, KEPT)
    ensures Last(history + [x], KEPT) == Last(loaded + (finished + [x]), KEPT)
  {
    assert loaded + (finished + [x]) == loaded + finished + [x];
    if finished == [] {
      assert loaded + finished == loaded;
    } else {
      LastOfLast(loaded + finished, x, KEPT);
    }
  }

  lemma WaitingMatches(c: Crew, i: nat, ph: Phase, taken: nat, rs: seq<Result>)
    requires CrewOk(c) && i < |c.phases| && !c.phases[i].Done? && !ph.Done? && ResultsMatch(c, rs)
    ensures ResultsMatch(CrewStep(c, i, ph, taken), rs)
  {
    assert DoneIn(CrewStep(c, i, ph, taken).phases) == DoneIn(c.phases);
    forall r | r in rs ensures IsResultOf(CrewStep(c, i, ph, taken), r) {
      StaysResult(c, i, ph, taken, r);
    }
  }

  lemma {:induction false} RunKeepsInv(s: State, es: seq<Event>, loaded: seq<Summary>)
    requires Inv(s, loaded)
    ensures Inv(Run(s, es), loaded)
    decreases |es|
  {
    if es != [] {
      StepKeepsInv(s, es[0], loaded);
      RunKeepsInv(Next(s, es[0]), es[1..], loaded);
    }
  }

  // ---------------------------------------------------------------- what every schedule gives

  function Fresh(loaded: seq<Summary>): State { State(map[], map[], loaded, []) }

  lemma {:induction false} DoneCount(ps: seq<Phase>)
    ensures |DoneIn(ps)| <= |ps|
    ensures |DoneIn(ps)| == |ps| <==> forall i :: 0 <= i < |ps| ==> ps[i].Done?
  {
    if ps != [] {
      var n := |ps| - 1;
      DoneCount(ps[..n]);
      assert DoneIn(ps) == DoneIn(ps[..n]) + (if ps[n].Done? then {n} else {});
      assert forall i :: 0 <= i < n ==> ps[..n][i] == ps[i];
    }
  }

  lemma {:induction false} BadAtMost(rs: seq<Result>)
    ensures BadIn(rs) <= |rs|
  {
    if rs != [] {
      BadAtMost(rs[..|rs| - 1]);
    }
  }

  /** In every schedule and for every job: at most four probes in flight, `Failed <= Completed
      <= Total`, and a completed job has exactly one result for every target, `Failed` being
      the number of those that are not ok. */
  lemma EverySchedule(loaded: seq<Summary>, es: seq<Event>, id: string)
    requires id in Run(Fresh(loaded), es).jobs
    ensures
      var s := Run(Fresh(loaded), es);
      id in s.crews && JobFacts(s.jobs[id], s.crews[id])
  {
    RunKeepsInv(Fresh(loaded), es, loaded);
    var s := Run(Fresh(loaded), es);
    assert JobOk(id, s.jobs[id], s.crews[id]);
    BadAtMost(s.jobs[id].results);
    DoneCount(s.crews[id].phases);
  }

  predicate JobFacts(j: Job, c: Crew) {
    && |InFlight(c.phases)| <= SLOTS
    && j.summary.failed <= j.summary.completed <= j.summary.total == |c.targets|
    && j.summary.failed == BadIn(j.results)
    && (forall p, q :: 0 <= p < q < |j.results| ==> j.results[p].target != j.results[q].target)
    && (j.summary.status == Completed ==>
          (j.summary.completed == j.summary.total == |j.results|
           && forall i :: 0 <= i < |c.targets| ==> HasResult(j.results, c.targets[i])))
  }

  predicate HasResult(rs: seq<Result>, t: Target) { exists ok :: Result(t, ok) in rs }

  /** The history is the last hundred finished jobs, after those the process began with. */
  lemma HistoryIsTheTail(loaded: seq<Summary>, es: seq<Event>)
    requires Run(Fresh(loaded), es).finished != []
    ensures Run(Fresh(loaded), es).history == Last(loaded + Run(Fresh(loaded), es).finished, KEPT)
  {
    RunKeepsInv(Fresh(loaded), es, loaded);
  }

  /** The semaphore never locks a job up: while it is running, one of its goroutines, or the
      closing of the job, can go on. */
  lemma NeverStuck(loaded: seq<Summary>, es: seq<Event>, id: string) returns (e: Event)
    requires id in Run(Fresh(loaded), es).jobs && Run(Fresh(loaded), es).jobs[id].summary.status == Running
    ensures !e.Start? && e.id == id && Enabled(Run(Fresh(loaded), es), e)
  {
    RunKeepsInv(Fresh(loaded), es, loaded);
    var s := Run(Fresh(loaded), es);
    var c := s.crews[id];
    assert JobOk(id, s.jobs[id], c);
    if i: nat :| i < |c.phases| && c.phases[i] == Probing {
      ReleaseOk(c, i, true);
      e := Release(id, i, true);
    } else if i: nat :| i < |c.phases| && c.phases[i].Probed? {
      e := Record(id, i);
    } else if i: nat :| i < |c.phases| && c.phases[i] == Waiting {
      assert InFlight(c.phases) == {};
      e := Acquire(id, i);
    } else {
      e := Finish(id);
    }
  }

  // ---------------------------------------------------------------- in plain values

  predicate NulFree(s: string) { '\0' !in s }

  /** Two targets are one when provider and model are the same. */
  lemma TargetsApart(s: Target, t: Target)
    requires NulFree(s.provider) && NulFree(t.provider)
    ensures TargetKey(s) == TargetKey(t) <==> s == t
  {
    if TargetKey(s) == TargetKey(t) {
      var k, a, b := TargetKey(s), s.provider, t.provider;
      assert k[|a|] == '\0' && k[|b|] == '\0';
      assert forall j :: 0 <= j < |a| ==> k[j] == a[j] != '\0';
      assert forall j :: 0 <= j < |b| ==> k[j] == b[j] != '\0';
      assert |a| == |b|;
      assert k[..|a|] == a && k[..|b|] == b && k[|a| + 1..] == s.model && k[|b| + 1..] == t.model;
    }
  }

  /** What a batch accepts: one to fifty targets, none empty and none twice, of configured
      providers, each an active model of the catalog. */
  lemma AcceptedIff(models: seq<Model>, configs: set<string>, ts: seq<Target>)
    requires forall i :: 0 <= i < |ts| ==> NulFree(ts[i].provider)
    ensures Valid(models, configs, ts) <==>
      && |ts| > 0 && |ts| < 51 && (forall i, j :: 0 <= i < j < |ts| ==> ts[i] != ts[j])
      && forall t :: t in ts ==>
           && |t.provider| > 0 && |t.model| > 0 && t.provider in configs
           && exists m :: m in models && m.provider == t.provider && m.id == t.model && m.status == Active
  {
    forall i, j | 0 <= i < j < |ts| ensures TargetKey(ts[i]) == TargetKey(ts[j]) <==> ts[i] == ts[j] {
      TargetsApart(ts[i], ts[j]);
    }
    forall t | t in ts
      ensures Probeable(models, configs, t) <==>
        && |t.provider| > 0 && |t.model| > 0 && t.provider in configs
        && exists m :: m in models && m.provider == t.provider && m.id == t.model && m.status == Active
    {
      if i :| 0 <= i < |models| && models[i].provider == t.provider && models[i].id == t.model && models[i].status == Active {
        assert models[i] in models;
      }
    }
    assert (forall i :: 0 <= i < |ts| ==> Probeable(models, configs, ts[i])) <==>
           (forall t :: t in ts ==> Probeable(models, configs, t));
  }

  /** Four probes of a job at a time: a goroutine begins exactly while fewer are in flight. */
  lemma FourAtATime(s: State, id: string, i: nat)
    requires id in s.crews && i < |s.crews[id].phases| && s.crews[id].phases[i] == Waiting
    ensures Enabled(s, Acquire(id, i)) <==> s.crews[id].taken < 4
  {
  }

  /** A result is counted once, and as a failure unless it is one that succeeded. */
  lemma ResultWrites(j: Job, r: Result)
    ensures
      var k := Recorded(j, r);
      && k.results == j.results + [r] && k.summary.completed == j.summary.completed + 1
      && k.summary.failed == (if r.ok then j.summary.failed else j.summary.failed + 1)
      && k.summary.id == j.summary.id && k.summary.total == j.summary.total && k.summary.status == j.summary.status
  {
  }

  /** The last hundred jobs, in order. */
  lemma HistoryIsTheEnd(h: seq<Summary>, n: nat)
    ensures |Last(h, n)| == if |h| <= n then |h| else n
    ensures forall i :: 0 <= i < |Last(h, n)| ==> Last(h, n)[i] == h[|h| - |Last(h, n)| + i]
    ensures KEPT == 100
  {
  }

  lemma JobWrites(id: string, total: nat, j: Job)
    ensures Started(id, total) == Job(Summary(id, total, 0, 0, Running), [])
    ensures Closed(j).results == j.results && Closed(j).summary == j.summary.(status := Completed)
  {
  }

  /** A job is opened for one to fifty different targets under a new name, with a waiting
      goroutine for each; it is closed once, when all of them are done, in its entry and in the
      history; and then it stays closed. */
  lemma JobStepsWrite(s: State, id: string, targets: seq<Target>)
    ensures
      var t := Next(s, Start(id, targets));
      if id !in s.jobs && |targets| > 0 && |targets| < 51 && DistinctTargets(targets)
      then t.jobs == s.jobs[id := Job(Summary(id, |targets|, 0, 0, Running), [])] && t.history == s.history
           && t.crews.Keys == s.crews.Keys + {id} && t.crews[id].targets == targets && t.crews[id].taken == 0
           && |t.crews[id].phases| == |targets| && forall i :: 0 <= i < |targets| ==> t.crews[id].phases[i] == Waiting
      else t == s
    ensures id in s.jobs && id in s.crews && s.jobs[id].summary.status == Running
            && (forall i :: 0 <= i < |s.crews[id].phases| ==> s.crews[id].phases[i].Done?) ==>
      var t, closed := Next(s, Finish(id)), s.jobs[id].summary.(status := Completed);
      && t.jobs == s.jobs[id := Job(closed, s.jobs[id].results)] && t.crews == s.crews
      && t.history == Last(s.history + [closed], 100) && t.finished == s.finished + [closed]
    ensures id in s.jobs && s.jobs[id].summary.status == Completed ==> Next(s, Finish(id)) == s
  {
  }
}
