/** The bounded failover loop (`CompleteReliable` in `internal/routing/reliable.go`).

    The loop is proved equal to `Walk`, which repeats single turns of a `Flight`; the turns
    are shared with the interleaved runs of module `Quarantine`.  `IsFailover` says in one
    declarative predicate which attempts a request makes, and `FailoverIsUnique` shows that
    the loop makes exactly those.  Upstream answers are an arbitrary function of the attempt
    number and the candidate. */
module Failover {
  import opened Keys
  import opened CatalogModel
  import opened Ranking
  import Health
  import Knowledge
  import Scores
  import Service

  type FailureKind = Health.FailureKind

  // ---------------------------------------------------------------- one attempt

  /** The Retry-After header (section 10.2.3 of RFC 9110). */
  datatype RetryHeader = Absent | Seconds(n: int) | Date(at: Time)

  function RetryAfter(h: RetryHeader, now: Time): Time {
    match h
    case Absent => ZERO_TIME
    case Seconds(n) => if n > 0 then now + n * SECOND else ZERO_TIME
    case Date(at) => at
  }

  /** `valid` is the verdict of `validateSuccess` on the body of a 2xx answer: for a stream
      the one of `SseLookahead.ValidateStream`, otherwise whether the body is JSON. */
  datatype Answer =
    | TransportError(deadlineExceeded: bool)
    | NoAnswer
    | Http(status: int, valid: bool, retry: RetryHeader)

  datatype Reply = Reply(answer: Answer, at: Time, latency: nat)

  datatype Attempt = Attempt(provider: string, model: string, status: int, kind: FailureKind,
                             failed: bool, retryable: bool)

  predicate Is2xx(status: int) { 200 <= status < 300 }

  predicate Good(a: Attempt) { !a.failed && Is2xx(a.status) }

  /** `failureFor`; `error` is `Some(deadlineExceeded)` when the call itself failed. */
  function FailureFor(status: int, error: Option<bool>): (FailureKind, bool) {
    if error.Some? then (if error.value then Health.Timeout else Health.Network, true)
    else if status == 401 || status == 403 then (Health.Auth, true)
    else if status == 408 || status == 425 then (Health.Timeout, true)
    else if status == 429 then (Health.RateLimited, true)
    else if status >= 500 then (Health.Server, true)
    else if status >= 400 then (Health.Protocol, false)
    else (Health.NoFailure, false)
  }

  function AttemptOf(c: Candidate, a: Answer): Attempt {
    match a
    case TransportError(d) =>
      var (kind, retryable) := FailureFor(0, Some(d));
      Attempt(c.provider, c.model, 0, kind, true, retryable)
    case NoAnswer => Attempt(c.provider, c.model, 0, Health.Protocol, true, true)
    case Http(status, valid, _) =>
      var (kind, retryable) := FailureFor(status, None);
      if Is2xx(status) && !valid
      then Attempt(c.provider, c.model, status, Health.Protocol, true, true)
      else Attempt(c.provider, c.model, status, kind, false, retryable)
  }

  /** Failures that speak about the provider rather than the model. */
  predicate ProviderWide(a: Attempt) {
    a.kind == Health.Network || a.kind == Health.Timeout || a.kind == Health.RateLimited
    || a.kind == Health.Server || a.kind == Health.Auth
  }

  function ScopeModel(a: Attempt): string { if ProviderWide(a) then Health.PROVIDER_WIDE else a.model }
  function ScopeKey(a: Attempt): string { RouteKey(a.provider, ScopeModel(a)) }

  datatype World = World(health: Health.Items, stats: Scores.Stats)

  /** What the first section of an attempt does to the table. */
  function HealthFirst(h: Health.Items, o: Health.Options, c: Candidate, r: Reply): Health.Items {
    var a := AttemptOf(c, r.answer);
    if Good(a) then Health.Succeeded(h, c.provider, c.model, r.at)
    else if a.kind == Health.NoFailure then h
    else Health.Failed(h, o, a.provider, ScopeModel(a), a.kind, r.at)
  }

  /** A second section that is still to come: rate limits with a deadline have one. */
  datatype Extension = Extension(provider: string, model: string, now: Time, until: Time)

  function ExtensionOf(c: Candidate, r: Reply): Option<Extension> {
    var a := AttemptOf(c, r.answer);
    var until := RetryAfter(if r.answer.Http? then r.answer.retry else Absent, r.at);
    if Good(a) || a.kind != Health.RateLimited || until <= r.at then None
    else Some(Extension(a.provider, ScopeModel(a), r.at, until))
  }

  function ExtendedBy(h: Health.Items, x: Extension): Health.Items {
    Health.Extended(h, x.provider, x.model, x.now, x.until)
  }

  /** Both sections, with nothing in between. */
  function HealthAfter(h: Health.Items, o: Health.Options, c: Candidate, r: Reply): Health.Items {
    var first := HealthFirst(h, o, c, r);
    var x := ExtensionOf(c, r);
    if x.Some? then ExtendedBy(first, x.value) else first
  }

  function WorldAfter(w: World, o: Health.Options, c: Candidate, r: Reply): World {
    World(HealthAfter(w.health, o, c, r),
          Scores.Recorded(w.stats, Scores.Sample(CandidateKey(c), Good(AttemptOf(c, r.answer)), r.latency)))
  }

  // ---------------------------------------------------------------- turns of the loop

  datatype Stop = Answered | Rejected | OutOfAttempts | OutOfCandidates

  datatype Flight = Flight(cands: seq<Candidate>, max: nat, pos: nat,
                           attempts: seq<Attempt>, picked: seq<nat>, skipped: set<string>,
                           stop: Option<Stop>)

  function Start(cands: seq<Candidate>, max: nat): Flight {
    Flight(cands, max, 0, [], [], {}, None)
  }

  predicate WillTry(f: Flight) {
    f.stop.None? && f.pos < |f.cands| && |f.attempts| < f.max && f.cands[f.pos].provider !in f.skipped
  }

  /** A turn without a request: the end, the limit, or a skipped provider. */
  function Pass(f: Flight): Flight
    requires !WillTry(f)
  {
    if f.stop.Some? then f
    else if f.pos >= |f.cands| then f.(stop := Some(OutOfCandidates))
    else if |f.attempts| >= f.max then f.(stop := Some(OutOfAttempts))
    else f.(pos := f.pos + 1)
  }

  /** A turn with a request. */
  function Try(f: Flight, r: Reply): Flight
    requires WillTry(f)
  {
    var c := f.cands[f.pos];
    var a := AttemptOf(c, r.answer);
    f.(pos := f.pos + 1, attempts := f.attempts + [a], picked := f.picked + [f.pos],
       skipped := f.skipped + (if ProviderWide(a) then {c.provider} else {}),
       stop := if Good(a) then Some(Answered) else if !a.retryable then Some(Rejected) else None)
  }

  type Upstream = (nat, Candidate) -> Reply

  function Walk(f: Flight, up: Upstream, o: Health.Options, w: World): (Flight, World)
    decreases if f.stop.Some? then 0 else 1, |f.cands| - f.pos
  {
    if f.stop.Some? then (f, w)
    else if WillTry(f) then
      var c := f.cands[f.pos];
      var r := up(|f.attempts|, c);
      Walk(Try(f, r), up, o, WorldAfter(w, o, c, r))
    else Walk(Pass(f), up, o, w)
  }

  // ---------------------------------------------------------------- which attempts are made

  /** Candidate `k` is passed over because an earlier attempt failed provider-wide on its
      provider. */
  ghost predicate PassedOver(cands: seq<Candidate>, attempts: seq<Attempt>, picked: seq<nat>, k: nat)
    requires k < |cands| && |picked| == |attempts| && forall i :: 0 <= i < |picked| ==> picked[i] < |cands|
  {
    exists j :: 0 <= j < |attempts| && picked[j] < k && ProviderWide(attempts[j])
             && cands[picked[j]].provider == cands[k].provider
  }

  ghost predicate Tries(cands: seq<Candidate>, up: Upstream, attempts: seq<Attempt>, picked: seq<nat>) {
    |picked| == |attempts|
    && (forall i :: 0 <= i < |picked| ==> picked[i] < |cands|)
    && (forall i, j :: 0 <= i < j < |picked| ==> picked[i] < picked[j])
    && (forall i :: 0 <= i < |attempts| ==>
          attempts[i] == AttemptOf(cands[picked[i]], up(i, cands[picked[i]]).answer))
    && (forall i, j :: 0 <= i < j < |attempts| && ProviderWide(attempts[i]) ==>
          attempts[j].provider != attempts[i].provider)
  }

  /** The attempts of one request, said without a loop: they follow the ranking; every one
      but the last is a retryable failure; after a provider-wide failure its provider is
      never tried again; a candidate ranked before the last attempt is left out only for
      that reason; and the list ends early only by success, by a failure that is not
      retryable, or at the attempt limit. */
  ghost predicate IsFailover(cands: seq<Candidate>, up: Upstream, max: nat, attempts: seq<Attempt>, picked: seq<nat>) {
    Tries(cands, up, attempts, picked)
    && |attempts| <= max
    && (forall i :: 0 <= i < |attempts| - 1 ==> attempts[i].retryable)
    && (forall k :: 0 <= k < |cands| && k !in picked && attempts != [] && k < picked[|picked| - 1]
          ==> PassedOver(cands, attempts, picked, k))
    && (|attempts| < max && (attempts == [] || attempts[|attempts| - 1].retryable) ==>
          forall k :: 0 <= k < |cands| && k !in picked ==> PassedOver(cands, attempts, picked, k))
  }

  ghost predicate SkippedExactly(attempts: seq<Attempt>, skipped: set<string>) {
    forall p :: p in skipped <==>
      exists i :: 0 <= i < |attempts| && ProviderWide(attempts[i]) && attempts[i].provider == p
  }

  ghost predicate Covered(cands: seq<Candidate>, attempts: seq<Attempt>, picked: seq<nat>, pos: nat)
    requires pos <= |cands| && |picked| == |attempts| && forall i :: 0 <= i < |picked| ==> picked[i] < |cands|
  {
    forall k :: 0 <= k < pos && k !in picked ==> PassedOver(cands, attempts, picked, k)
  }

  /** The part of the invariant that does not speak about the position. */
  ghost predicate AttemptsOk(f: Flight, up: Upstream) {
    Tries(f.cands, up, f.attempts, f.picked)
    && |f.attempts| <= f.max
    && SkippedExactly(f.attempts, f.skipped)
    && forall i :: 0 <= i < |f.attempts| - 1 ==> f.attempts[i].retryable
  }

  /** The part that does not speak about what the attempts were answered. */
  ghost predicate PositionOk(f: Flight) {
    |f.picked| == |f.attempts| && f.pos <= |f.cands|
    && (forall i :: 0 <= i < |f.picked| ==> f.picked[i] < f.pos)
    && Covered(f.cands, f.attempts, f.picked, f.pos)
    && StopInv(f)
  }

  ghost predicate FlightInv(f: Flight, up: Upstream) { AttemptsOk(f, up) && PositionOk(f) }

  predicate StopInv(f: Flight) {
    var n := |f.attempts|;
    match f.stop
    case None => n > 0 ==> f.attempts[n - 1].retryable
    case Some(Answered) => n > 0 && Good(f.attempts[n - 1])
    case Some(Rejected) => n > 0 && !Good(f.attempts[n - 1]) && !f.attempts[n - 1].retryable
    case Some(OutOfAttempts) => n == f.max && (n > 0 ==> f.attempts[n - 1].retryable)
    case Some(OutOfCandidates) => f.pos == |f.cands| && (n > 0 ==> f.attempts[n - 1].retryable)
  }

  lemma GoodIsFinal(c: Candidate, a: Answer)
    ensures var t := AttemptOf(c, a);
      && t.provider == c.provider && t.model == c.model
      && (Good(t) ==> !t.retryable && t.kind == Health.NoFailure)
      && (ProviderWide(t) ==> t.retryable)
      && (t.retryable ==> t.kind != Health.NoFailure)
  {
  }

  /** A candidate whose provider is skipped is passed over. */
  lemma SkippedIsPassedOver(f: Flight, up: Upstream)
    requires FlightInv(f, up) && f.pos < |f.cands| && f.cands[f.pos].provider in f.skipped
    ensures PassedOver(f.cands, f.attempts, f.picked, f.pos)
  {
    var p := f.cands[f.pos].provider;
    var j :| 0 <= j < |f.attempts| && ProviderWide(f.attempts[j]) && f.attempts[j].provider == p;
    GoodIsFinal(f.cands[f.picked[j]], up(j, f.cands[f.picked[j]]).answer);
  }

  lemma CoveredByPassing(cands: seq<Candidate>, attempts: seq<Attempt>, picked: seq<nat>, pos: nat)
    requires pos < |cands| && |picked| == |attempts| && forall i :: 0 <= i < |picked| ==> picked[i] < |cands|
    requires Covered(cands, attempts, picked, pos) && PassedOver(cands, attempts, picked, pos)
    ensures Covered(cands, attempts, picked, pos + 1)
  {
  }

  lemma PassKeepsAttempts(f: Flight, up: Upstream)
    requires !WillTry(f) && AttemptsOk(f, up)
    ensures AttemptsOk(Pass(f), up)
  {
  }

  lemma PassKeepsPosition(f: Flight)
    requires !WillTry(f) && PositionOk(f)
    requires f.stop.None? && f.pos < |f.cands| && |f.attempts| < f.max ==>
      PassedOver(f.cands, f.attempts, f.picked, f.pos)
    requires |f.attempts| <= f.max
    ensures PositionOk(Pass(f))
  {
    if f.stop.None? && f.pos < |f.cands| && |f.attempts| < f.max {
      CoveredByPassing(f.cands, f.attempts, f.picked, f.pos);
    }
  }

  lemma PassKeepsInv(f: Flight, up: Upstream)
    requires FlightInv(f, up) && !WillTry(f)
    ensures FlightInv(Pass(f), up)
  {
    PassKeepsAttempts(f, up);
    if f.stop.None? && f.pos < |f.cands| && |f.attempts| < f.max {
      SkippedIsPassedOver(f, up);
    }
    PassKeepsPosition(f);
  }

  lemma PassedOverGrows(cands: seq<Candidate>, attempts: seq<Attempt>, picked: seq<nat>, k: nat, a: Attempt, p: nat)
    requires k < |cands| && p < |cands| && |picked| == |attempts|
    requires forall i :: 0 <= i < |picked| ==> picked[i] < |cands|
    requires PassedOver(cands, attempts, picked, k)
    ensures PassedOver(cands, attempts + [a], picked + [p], k)
  {
    var j :| 0 <= j < |attempts| && picked[j] < k && ProviderWide(attempts[j])
          && cands[picked[j]].provider == cands[k].provider;
    assert (attempts + [a])[j] == attempts[j] && (picked + [p])[j] == picked[j];
  }

  lemma CoveredGrows(cands: seq<Candidate>, attempts: seq<Attempt>, picked: seq<nat>, a: Attempt, p: nat)
    requires p < |cands| && |picked| == |attempts|
    requires forall i :: 0 <= i < |picked| ==> picked[i] < |cands|
    requires Covered(cands, attempts, picked, p)
    ensures Covered(cands, attempts + [a], picked + [p], p + 1)
  {
    forall k | 0 <= k < p + 1 && k !in picked + [p]
      ensures PassedOver(cands, attempts + [a], picked + [p], k)
    {
      PassedOverGrows(cands, attempts, picked, k, a, p);
    }
  }

  lemma SkippedGrows(attempts: seq<Attempt>, skipped: set<string>, a: Attempt)
    requires SkippedExactly(attempts, skipped)
    ensures SkippedExactly(attempts + [a], skipped + (if ProviderWide(a) then {a.provider} else {}))
  {
    var longer := attempts + [a];
    assert longer[|attempts|] == a;
    assert forall i :: 0 <= i < |attempts| ==> longer[i] == attempts[i];
  }

  lemma TriesGrows(cands: seq<Candidate>, up: Upstream, attempts: seq<Attempt>, picked: seq<nat>, p: nat)
    requires Tries(cands, up, attempts, picked) && p < |cands|
    requires forall i :: 0 <= i < |picked| ==> picked[i] < p
    requires forall i :: 0 <= i < |attempts| && ProviderWide(attempts[i]) ==> attempts[i].provider != cands[p].provider
    ensures Tries(cands, up, attempts + [AttemptOf(cands[p], up(|attempts|, cands[p]).answer)], picked + [p])
  {
    GoodIsFinal(cands[p], up(|attempts|, cands[p]).answer);
  }

  lemma RetryableGrows(attempts: seq<Attempt>, a: Attempt)
    requires forall i :: 0 <= i < |attempts| - 1 ==> attempts[i].retryable
    requires attempts != [] ==> attempts[|attempts| - 1].retryable
    ensures forall i :: 0 <= i < |attempts + [a]| - 1 ==> (attempts + [a])[i].retryable
  {
  }

  lemma NotSkipped(attempts: seq<Attempt>, skipped: set<string>, p: string)
    requires SkippedExactly(attempts, skipped) && p !in skipped
    ensures forall i :: 0 <= i < |attempts| && ProviderWide(attempts[i]) ==> attempts[i].provider != p
  {
  }

  lemma TryKeepsAttempts(f: Flight, up: Upstream)
    requires AttemptsOk(f, up) && StopInv(f) && WillTry(f)
    requires forall i :: 0 <= i < |f.picked| ==> f.picked[i] < f.pos
    ensures AttemptsOk(Try(f, up(|f.attempts|, f.cands[f.pos])), up)
  {
    var c := f.cands[f.pos];
    var a := AttemptOf(c, up(|f.attempts|, c).answer);
    TryTries(f, up);
    assert a.provider == c.provider;
    SkippedGrows(f.attempts, f.skipped, a);
    RetryableGrows(f.attempts, a);
  }

  lemma TryTries(f: Flight, up: Upstream)
    requires Tries(f.cands, up, f.attempts, f.picked) && SkippedExactly(f.attempts, f.skipped) && WillTry(f)
    requires forall i :: 0 <= i < |f.picked| ==> f.picked[i] < f.pos
    ensures
      var g := Try(f, up(|f.attempts|, f.cands[f.pos]));
      Tries(g.cands, up, g.attempts, g.picked)
  {
    NotSkipped(f.attempts, f.skipped, f.cands[f.pos].provider);
    TriesGrows(f.cands, up, f.attempts, f.picked, f.pos);
  }

  lemma TryKeepsPosition(f: Flight, r: Reply)
    requires PositionOk(f) && WillTry(f)
    ensures PositionOk(Try(f, r))
  {
    GoodIsFinal(f.cands[f.pos], r.answer);
    CoveredGrows(f.cands, f.attempts, f.picked, AttemptOf(f.cands[f.pos], r.answer), f.pos);
  }

  lemma TryKeepsInv(f: Flight, up: Upstream)
    requires FlightInv(f, up) && WillTry(f)
    ensures FlightInv(Try(f, up(|f.attempts|, f.cands[f.pos])), up)
  {
    TryKeepsAttempts(f, up);
    TryKeepsPosition(f, up(|f.attempts|, f.cands[f.pos]));
  }

  lemma {:induction false} WalkKeepsInv(f: Flight, up: Upstream, o: Health.Options, w: World)
    requires FlightInv(f, up)
    ensures
      var g := Walk(f, up, o, w).0;
      FlightInv(g, up) && g.stop.Some? && g.cands == f.cands && g.max == f.max
    decreases if f.stop.Some? then 0 else 1, |f.cands| - f.pos
  {
    if f.stop.None? {
      if WillTry(f) {
        var c := f.cands[f.pos];
        var r := up(|f.attempts|, c);
        TryKeepsInv(f, up);
        WalkKeepsInv(Try(f, r), up, o, WorldAfter(w, o, c, r));
      } else {
        PassKeepsInv(f, up);
        WalkKeepsInv(Pass(f), up, o, w);
      }
    }
  }

  function Outcome(cands: seq<Candidate>, max: nat, up: Upstream, o: Health.Options, w: World): (Flight, World) {
    Walk(Start(cands, max), up, o, w)
  }

  /** `f` stopped with attempts that `IsFailover` describes, and says why it stopped. */
  ghost predicate StoppedRight(f: Flight, up: Upstream) {
    var n := |f.attempts|;
    && IsFailover(f.cands, up, f.max, f.attempts, f.picked)
    && (f.stop == Some(Answered) <==> n > 0 && Good(f.attempts[n - 1]))
    && (f.stop == Some(Rejected) <==> n > 0 && !Good(f.attempts[n - 1]) && !f.attempts[n - 1].retryable)
  }

  lemma FlightStopsRight(f: Flight, up: Upstream)
    requires FlightInv(f, up) && f.stop.Some?
    ensures StoppedRight(f, up)
  {
    if |f.attempts| > 0 {
      var i := |f.attempts| - 1;
      GoodIsFinal(f.cands[f.picked[i]], up(i, f.cands[f.picked[i]]).answer);
    }
  }

  /** The loop makes a list of attempts that `IsFailover` describes, and it answers if and
      only if the last attempt is a validated 2xx. */
  lemma LoopIsFailover(cands: seq<Candidate>, max: nat, up: Upstream, o: Health.Options, w: World)
    ensures
      var f := Outcome(cands, max, up, o, w).0;
      f.cands == cands && f.max == max && StoppedRight(f, up)
  {
    WalkKeepsInv(Start(cands, max), up, o, w);
    FlightStopsRight(Outcome(cands, max, up, o, w).0, up);
  }

  /** The next pick of one list is neither picked nor passed over by another that has
      agreed so far and is already beyond it. */
  lemma NotLeftOut(cands: seq<Candidate>, up: Upstream, a: seq<Attempt>, p: seq<nat>,
                   b: seq<Attempt>, q: seq<nat>, i: nat)
    requires Tries(cands, up, a, p) && Tries(cands, up, b, q)
    requires i < |p| && i <= |q| && p[..i] == q[..i]
    requires i < |q| ==> p[i] < q[i]
    ensures p[i] !in q && !PassedOver(cands, b, q, p[i])
  {
    var k := p[i];
    forall j | 0 <= j < |q| ensures q[j] < k ==> j < i && p[j] == q[j] && a[j] == b[j] {
      if j < i {
        assert p[..i][j] == q[..i][j];
      }
    }
    assert forall j :: 0 <= j < i ==> q[j] == q[..i][j] == p[j] < k;
    if PassedOver(cands, b, q, k) {
      var j :| 0 <= j < |b| && q[j] < k && ProviderWide(b[j]) && cands[q[j]].provider == cands[k].provider;
      GoodIsFinal(cands[p[j]], up(j, cands[p[j]]).answer);
      GoodIsFinal(cands[k], up(i, cands[k]).answer);
    }
  }

  /** Two lists that agree so far agree on the next candidate. */
  lemma NextPick(cands: seq<Candidate>, up: Upstream, max: nat,
                 a: seq<Attempt>, p: seq<nat>, b: seq<Attempt>, q: seq<nat>, i: nat)
    requires IsFailover(cands, up, max, a, p) && IsFailover(cands, up, max, b, q)
    requires i < |p| && i <= |q| && p[..i] == q[..i]
    ensures i < |q| && q[i] <= p[i]
  {
    if i > 0 {
      assert p[i - 1] == p[..i][i - 1] == q[..i][i - 1] == q[i - 1];
      assert a[i - 1].retryable && b[i - 1] == a[i - 1];
    }
    if |q| == i || p[i] < q[i] {
      NotLeftOut(cands, up, a, p, b, q, i);
    }
  }

  lemma SamePrefix(p: seq<nat>, q: seq<nat>, i: nat)
    requires 0 < i <= |p| && i <= |q| && p[..i - 1] == q[..i - 1] && p[i - 1] == q[i - 1]
    ensures p[..i] == q[..i]
  {
    assert p[..i] == p[..i - 1] + [p[i - 1]] && q[..i] == q[..i - 1] + [q[i - 1]];
  }

  lemma SameNextPick(cands: seq<Candidate>, up: Upstream, max: nat,
                     a: seq<Attempt>, p: seq<nat>, b: seq<Attempt>, q: seq<nat>, i: nat)
    requires IsFailover(cands, up, max, a, p) && IsFailover(cands, up, max, b, q)
    requires i < |p| && i <= |q| && p[..i] == q[..i]
    ensures i < |q| && p[i] == q[i]
  {
    NextPick(cands, up, max, a, p, b, q, i);
    NextPick(cands, up, max, b, q, a, p, i);
  }

  lemma {:induction false} SamePicks(cands: seq<Candidate>, up: Upstream, max: nat,
                                     a: seq<Attempt>, p: seq<nat>, b: seq<Attempt>, q: seq<nat>, i: nat)
    requires IsFailover(cands, up, max, a, p) && IsFailover(cands, up, max, b, q)
    requires i <= |p|
    ensures i <= |q| && p[..i] == q[..i]
  {
    if i > 0 {
      SamePicks(cands, up, max, a, p, b, q, i - 1);
      SameNextPick(cands, up, max, a, p, b, q, i - 1);
      SamePrefix(p, q, i);
    }
  }

  /** `IsFailover` leaves no choice: a list of attempts satisfies it if and only if it is
      the one the loop makes. */
  lemma FailoverIsUnique(cands: seq<Candidate>, max: nat, up: Upstream, o: Health.Options, w: World,
                         attempts: seq<Attempt>, picked: seq<nat>)
    ensures
      var f := Outcome(cands, max, up, o, w).0;
      IsFailover(cands, up, max, attempts, picked) <==> attempts == f.attempts && picked == f.picked
  {
    var f := Outcome(cands, max, up, o, w).0;
    LoopIsFailover(cands, max, up, o, w);
    if IsFailover(cands, up, max, attempts, picked) {
      SamePicks(cands, up, max, attempts, picked, f.attempts, f.picked, |picked|);
      SamePicks(cands, up, max, f.attempts, f.picked, attempts, picked, |f.picked|);
      assert picked[..|picked|] == picked && f.picked[..|f.picked|] == f.picked;
    }
  }

  /** No route is tried twice, and no provider again after it failed as a whole. */
  lemma NeverTwice(cands: seq<Candidate>, max: nat, up: Upstream, o: Health.Options, w: World, i: nat, j: nat)
    requires DistinctCandidates(cands)
    requires i < j < |Outcome(cands, max, up, o, w).0.attempts|
    ensures
      var a := Outcome(cands, max, up, o, w).0.attempts;
      && RouteKey(a[i].provider, a[i].model) != RouteKey(a[j].provider, a[j].model)
      && (ProviderWide(a[i]) ==> a[i].provider != a[j].provider)
      && a[i].retryable && !Good(a[i])
  {
    LoopIsFailover(cands, max, up, o, w);
    var f := Outcome(cands, max, up, o, w).0;
    GoodIsFinal(cands[f.picked[i]], up(i, cands[f.picked[i]]).answer);
    GoodIsFinal(cands[f.picked[j]], up(j, cands[f.picked[j]]).answer);
    assert CandidateKey(cands[f.picked[i]]) != CandidateKey(cands[f.picked[j]]);
  }

  // ---------------------------------------------------------------- what a request leaves behind

  predicate Routable(c: Candidate) { SlashFree(c.provider) && c.model != Health.PROVIDER_WIDE }

  ghost predicate Marked(attempts: seq<Attempt>, h: Health.Items) {
    forall i :: 0 <= i < |attempts| && attempts[i].kind != Health.NoFailure ==>
      ScopeKey(attempts[i]) in h && h[ScopeKey(attempts[i])].needsProbe
  }

  lemma ScopeDiffers(f: Flight, up: Upstream, i: nat)
    requires FlightInv(f, up) && WillTry(f) && DistinctCandidates(f.cands)
    requires forall c :: c in f.cands ==> Routable(c)
    requires i < |f.attempts|
    ensures ScopeKey(f.attempts[i]) != CandidateKey(f.cands[f.pos])
  {
    var c, d := f.cands[f.pos], f.cands[f.picked[i]];
    assert c in f.cands && d in f.cands && Routable(c) && Routable(d);
    GoodIsFinal(d, up(i, d).answer);
    if ScopeKey(f.attempts[i]) == CandidateKey(c) {
      RouteKeyInjective(d.provider, ScopeModel(f.attempts[i]), c.provider, c.model);
    }
  }

  lemma MarkedAfterTry(f: Flight, up: Upstream, o: Health.Options, h: Health.Items)
    requires FlightInv(f, up) && WillTry(f) && DistinctCandidates(f.cands)
    requires forall c :: c in f.cands ==> Routable(c)
    requires Marked(f.attempts, h)
    ensures
      var c := f.cands[f.pos];
      var r := up(|f.attempts|, c);
      Marked(Try(f, r).attempts, HealthAfter(h, o, c, r))
  {
    var c := f.cands[f.pos];
    var r := up(|f.attempts|, c);
    var a := AttemptOf(c, r.answer);
    GoodIsFinal(c, r.answer);
    var after := HealthAfter(h, o, c, r);
    var g := Try(f, r);
    forall i | 0 <= i < |g.attempts| && g.attempts[i].kind != Health.NoFailure
      ensures ScopeKey(g.attempts[i]) in after && after[ScopeKey(g.attempts[i])].needsProbe
    {
      if i < |f.attempts| {
        assert g.attempts[i] == f.attempts[i];
        ScopeDiffers(f, up, i);
      } else {
        assert g.attempts[i] == a;
      }
    }
  }

  lemma {:induction false} WalkMarks(f: Flight, up: Upstream, o: Health.Options, w: World)
    requires FlightInv(f, up) && DistinctCandidates(f.cands)
    requires forall c :: c in f.cands ==> Routable(c)
    requires Marked(f.attempts, w.health)
    ensures var (g, v) := Walk(f, up, o, w); Marked(g.attempts, v.health)
    decreases if f.stop.Some? then 0 else 1, |f.cands| - f.pos
  {
    if f.stop.None? {
      if WillTry(f) {
        var c := f.cands[f.pos];
        var r := up(|f.attempts|, c);
        TryKeepsInv(f, up);
        MarkedAfterTry(f, up, o, w.health);
        WalkMarks(Try(f, r), up, o, WorldAfter(w, o, c, r));
      } else {
        PassKeepsInv(f, up);
        WalkMarks(Pass(f), up, o, w);
      }
    }
  }

  /** Every failure of a request is still in force when the request ends: whatever the next
      request needs and whenever it starts, it ranks no model of a provider that failed as a
      whole, and not the model that failed on its own. */
  lemma NextRequestAvoidsFailures(cands: seq<Candidate>, max: nat, up: Upstream, o: Health.Options, w: World,
                                  i: nat, ctx: Context, models: seq<Model>, ranked: seq<Candidate>, c: Candidate)
    requires DistinctCandidates(cands) && forall d :: d in cands ==> Routable(d)
    requires i < |Outcome(cands, max, up, o, w).0.attempts|
    requires ctx.health == Outcome(cands, max, up, o, w).1.health
    requires IsRanking(ctx, models, ranked) && c in ranked
    ensures
      var a := Outcome(cands, max, up, o, w).0.attempts[i];
      && (ProviderWide(a) ==> c.provider != a.provider)
      && (a.kind != Health.NoFailure ==> c.provider != a.provider || c.model != a.model)
  {
    WalkMarks(Start(cands, max), up, o, w);
    RankedIff(ctx, models, ranked, c);
    var a := Outcome(cands, max, up, o, w).0.attempts[i];
    if a.kind != Health.NoFailure {
      assert Health.Blocked(ctx.health, ScopeKey(a), ctx.now);
    }
  }

  // ---------------------------------------------------------------- the method

  datatype RouteError =
    | NoError | InvalidRequest | CatalogEmpty
    | UpstreamFailed(provider: string, model: string, status: int)
    | LastFailure(attempt: Attempt)

  datatype Route = Route(provider: string, model: string)

  datatype Result = Result(response: Option<Route>, attempts: seq<Attempt>, error: RouteError)

  function ResultOf(f: Flight): Result {
    if f.attempts == [] then Result(None, [], CatalogEmpty)
    else
      var a := f.attempts[|f.attempts| - 1];
      match f.stop
      case Some(Answered) => Result(Some(Route(a.provider, a.model)), f.attempts, NoError)
      case Some(Rejected) => Result(None, f.attempts, UpstreamFailed(a.provider, a.model, a.status))
      case _ => Result(None, f.attempts, LastFailure(a))
  }

  /** The explicit model of a request: an optional "openai/" prefix, then an optional
      provider in front of the first slash. */
  function Requested(model: string): (Option<string>, string) {
    var name := if "openai/" <= model then model[|"openai/"|..] else model;
    var slash := FirstSlash(name);
    if 0 < slash < |name| then (Some(name[..slash]), name[slash + 1..]) else (None, name)
  }

  predicate Matches(model: string, c: Candidate) {
    model == "" || model == "auto"
    || (var (p, m) := Requested(model); c.model == m && (p.None? || c.provider == p.value))
  }

  function Filter(model: string, cs: seq<Candidate>): (r: seq<Candidate>)
    ensures forall c :: c in r <==> c in cs && Matches(model, c)
  {
    if cs == [] then []
    else
      assert cs == [cs[0]] + cs[1..];
      if Matches(model, cs[0]) then [cs[0]] + Filter(model, cs[1..]) else Filter(model, cs[1..])
  }

  lemma {:induction false} FilterConcat(model: string, a: seq<Candidate>, b: seq<Candidate>)
    ensures Filter(model, a + b) == Filter(model, a) + Filter(model, b)
  {
    if a == [] {
      assert a + b == b;
    } else {
      assert (a + b)[1..] == a[1..] + b;
      FilterConcat(model, a[1..], b);
    }
  }

  /** Naming a model keeps a ranking free of repetitions. */
  lemma {:induction false} FilterDistinct(model: string, cs: seq<Candidate>)
    requires DistinctCandidates(cs)
    ensures DistinctCandidates(Filter(model, cs))
  {
    if cs != [] {
      var tail := Filter(model, cs[1..]);
      FilterDistinct(model, cs[1..]);
      forall d | d in tail ensures CandidateKey(d) != CandidateKey(cs[0]) {
        var i :| 0 <= i < |cs[1..]| && cs[1..][i] == d;
        assert cs[i + 1] == d;
      }
    }
  }

  lemma {:induction false} FilterAll(model: string, cs: seq<Candidate>)
    requires forall c :: c in cs ==> Matches(model, c)
    ensures Filter(model, cs) == cs
  {
    if cs != [] {
      FilterAll(model, cs[1..]);
      assert cs[0] in cs && cs == [cs[0]] + cs[1..];
    }
  }

  lemma FilterOneMore(model: string, cs: seq<Candidate>, i: nat)
    requires i < |cs|
    ensures Filter(model, cs[..i + 1]) == Filter(model, cs[..i]) + (if Matches(model, cs[i]) then [cs[i]] else [])
  {
    assert cs[..i + 1] == cs[..i] + [cs[i]];
    FilterConcat(model, cs[..i], [cs[i]]);
  }

  lemma NamedMatches(model: string, c: Candidate)
    requires model != "" && model != "auto"
    ensures Matches(model, c) <==>
      c.model == Requested(model).1 && (Requested(model).0.None? || c.provider == Requested(model).0.value)
  {
  }

  function Limit(maxAttempts: int): nat { if maxAttempts <= 0 then 3 else maxAttempts }

  /** One request: classify the answer, record it for learning and for health. */
  method SendOne(candidate: Candidate, reply: Reply, health: Health.Table, learning: Scores.Learning)
    returns (attempt: Attempt)
    modifies health, learning
    ensures attempt == AttemptOf(candidate, reply.answer)
    ensures World(health.items, learning.items)
         == WorldAfter(World(old(health.items), old(learning.items)), health.options, candidate, reply)
  {
    var answer := reply.answer;
    var status := if answer.Http? then answer.status else 0;
    var (kind, retryable) := FailureFor(status, if answer.TransportError? then Some(answer.deadlineExceeded) else None);
    var failed := answer.TransportError?;
    if answer.NoAnswer? {
      failed, kind, retryable := true, Health.Protocol, true;
    }
    if !failed && Is2xx(status) && !answer.valid {
      failed, kind, retryable := true, Health.Protocol, true;
    }
    attempt := Attempt(candidate.provider, candidate.model, status, kind, failed, retryable);
    learning.Record(RouteKey(candidate.provider, candidate.model), !failed && Is2xx(status), reply.latency);
    if !failed && Is2xx(status) {
      health.Success(candidate.provider, candidate.model, reply.at);
      return;
    }
    if kind != Health.NoFailure {
      var scopeModel := candidate.model;
      if kind == Health.Network || kind == Health.Timeout || kind == Health.RateLimited
         || kind == Health.Server || kind == Health.Auth {
        scopeModel := Health.PROVIDER_WIDE;
      }
      if kind == Health.RateLimited {
        health.FailUntil(candidate.provider, scopeModel, kind, reply.at,
                         RetryAfter(if answer.Http? then answer.retry else Absent, reply.at));
      } else {
        health.Fail(candidate.provider, scopeModel, kind, reply.at);
      }
    }
  }

  lemma WalkTry(f: Flight, up: Upstream, o: Health.Options, w: World, r: Reply)
    requires WillTry(f) && r == up(|f.attempts|, f.cands[f.pos])
    ensures Walk(f, up, o, w) == Walk(Try(f, r), up, o, WorldAfter(w, o, f.cands[f.pos], r))
  {
  }

  lemma WalkPass(f: Flight, up: Upstream, o: Health.Options, w: World)
    requires f.stop.None? && !WillTry(f)
    ensures Walk(f, up, o, w) == Walk(Pass(f), up, o, w)
  {
  }

  /** A walk that has stopped is over, and its last attempt decides the result. */
  lemma WalkEnds(f: Flight, up: Upstream, o: Health.Options, w: World, attempts: seq<Attempt>, last: Attempt)
    requires f.attempts == attempts + [last] && (f.stop == Some(Answered) || f.stop == Some(Rejected))
    ensures Walk(f, up, o, w) == (f, w)
    ensures ResultOf(f) ==
      if f.stop == Some(Answered) then Result(Some(Route(last.provider, last.model)), f.attempts, NoError)
      else Result(None, f.attempts, UpstreamFailed(last.provider, last.model, last.status))
  {
  }

  /** A walk that can try no more is over, and its last attempt is its failure. */
  lemma WalkRunsOut(f: Flight, up: Upstream, o: Health.Options, w: World)
    requires f.stop.None? && (f.pos >= |f.cands| || |f.attempts| >= f.max)
    ensures Walk(f, up, o, w) == (Pass(f), w)
    ensures ResultOf(Pass(f)) ==
      if f.attempts == [] then Result(None, [], CatalogEmpty)
      else Result(None, f.attempts, LastFailure(f.attempts[|f.attempts| - 1]))
  {
  }

  /** A turn with a request, seen from the walk. */
  method TryOne(ghost f: Flight, up: Upstream, candidate: Candidate, reply: Reply, health: Health.Table,
                learning: Scores.Learning, ghost goal: (Flight, World))
    returns (attempt: Attempt)
    requires WillTry(f) && candidate == f.cands[f.pos] && reply == up(|f.attempts|, candidate)
    requires goal == Walk(f, up, health.options, World(health.items, learning.items))
    modifies health, learning
    ensures attempt == AttemptOf(candidate, reply.answer)
    ensures attempt.provider == candidate.provider && attempt.model == candidate.model
    ensures Good(attempt) ==> !attempt.retryable
    ensures goal == Walk(Try(f, reply), up, health.options, World(health.items, learning.items))
  {
    WalkTry(f, up, health.options, World(health.items, learning.items), reply);
    GoodIsFinal(candidate, reply.answer);
    attempt := SendOne(candidate, reply, health, learning);
  }

  /** The loop of the source, candidate by candidate. */
  method TryInOrder(cands: seq<Candidate>, max: nat, up: Upstream, health: Health.Table, learning: Scores.Learning)
    returns (result: Result)
    modifies health, learning
    ensures
      var (f, w) := Outcome(cands, max, up, health.options, World(old(health.items), old(learning.items)));
      result == ResultOf(f) && health.items == w.health && learning.items == w.stats
  {
    ghost var w0 := World(health.items, learning.items);
    ghost var f := Start(cands, max);
    ghost var goal := Outcome(cands, max, up, health.options, w0);
    var attempts: seq<Attempt> := [];
    var skipped: set<string> := {};
    for i := 0 to |cands|
      invariant f.cands == cands && f.max == max && f.pos == i && f.attempts == attempts
      invariant f.skipped == skipped && f.stop.None?
      invariant goal == Walk(f, up, health.options, World(health.items, learning.items))
    {
      var candidate := cands[i];
      if |attempts| >= max {
        break;
      }
      if candidate.provider in skipped {
        WalkPass(f, up, health.options, World(health.items, learning.items));
        f := Pass(f);
        continue;
      }
      var reply := up(|attempts|, candidate);
      var attempt := TryOne(f, up, candidate, reply, health, learning, goal);
      f := Try(f, reply);
      if !attempt.retryable {
        WalkEnds(f, up, health.options, World(health.items, learning.items), attempts, attempt);
      }
      attempts := attempts + [attempt];
      if Good(attempt) {
        return Result(Some(Route(candidate.provider, candidate.model)), attempts, NoError);
      }
      if ProviderWide(attempt) {
        skipped := skipped + {candidate.provider};
      }
      if !attempt.retryable {
        return Result(None, attempts, UpstreamFailed(candidate.provider, candidate.model, attempt.status));
      }
    }
    WalkRunsOut(f, up, health.options, World(health.items, learning.items));
    if attempts == [] {
      return Result(None, [], CatalogEmpty);
    }
    result := Result(None, attempts, LastFailure(attempts[|attempts| - 1]));
  }

  method FilterRequested(model: string, candidates: seq<Candidate>) returns (filtered: seq<Candidate>)
    ensures filtered == Filter(model, candidates)
  {
    if model == "" || model == "auto" {
      FilterAll(model, candidates);
      return candidates;
    }
    var (requestedProvider, requestedModel) := Requested(model);
    filtered := [];
    for i := 0 to |candidates|
      invariant filtered == Filter(model, candidates[..i])
    {
      var c := candidates[i];
      FilterOneMore(model, candidates, i);
      NamedMatches(model, c);
      if c.model == requestedModel && (requestedProvider.None? || c.provider == requestedProvider.value) {
        filtered := filtered + [c];
      }
    }
    assert candidates[..|candidates|] == candidates;
  }

  /** `CompleteReliable`: rank, keep what the request names, and fail over along the rest. */
  method CompleteReliable(router: Service.Router, models: seq<Model>, req: Service.Request, maxAttempts: int,
                          now: Time, up: Upstream)
    returns (result: Result, ghost ranked: seq<Candidate>)
    requires Knowledge.AllLabelled(router.knowledge.items)
    modifies router.health, router.learning
    ensures !req.isJson ==>
      result == Result(None, [], InvalidRequest)
      && router.health.items == old(router.health.items) && router.learning.items == old(router.learning.items)
    ensures req.isJson ==> IsRanking(old(router.ContextOf(req, now)), models, ranked)
    ensures req.isJson ==>
      var (f, w) := Outcome(Filter(req.model, ranked), Limit(maxAttempts), up, router.health.options,
                            World(old(router.health.items), old(router.learning.items)));
      result == ResultOf(f) && router.health.items == w.health && router.learning.items == w.stats
  {
    if !req.isJson {
      return Result(None, [], InvalidRequest), [];
    }
    var candidates := router.RankedCandidates(req, models, now);
    ranked := candidates;
    candidates := FilterRequested(req.model, candidates);
    result := TryInOrder(candidates, Limit(maxAttempts), up, router.health, router.learning);
  }

  // ---------------------------------------------------------------- statuses

  /** The statuses that are worth another candidate. */
  predicate RetriedStatus(status: int) {
    status in {401, 403, 408, 425, 429} || status >= 500
  }

  /** What an attempt is called, by the answer it got. */
  lemma KindOfAnswer(c: Candidate, a: Answer)
    ensures
      var t := AttemptOf(c, a);
      match a
      case TransportError(late) =>
        t.kind == (if late then Health.Timeout else Health.Network) && t.retryable && t.failed && t.status == 0
      case NoAnswer => t.kind == Health.Protocol && t.retryable && t.failed && t.status == 0
      case Http(status, valid, _) =>
        && t.status == status && (t.failed <==> 200 <= status <= 299 && !valid)
        && (t.retryable <==> RetriedStatus(status) || (200 <= status <= 299 && !valid))
        && (status in {401, 403} ==> t.kind == Health.Auth)
        && (status in {408, 425} ==> t.kind == Health.Timeout)
        && (status == 429 ==> t.kind == Health.RateLimited)
        && (status >= 500 ==> t.kind == Health.Server)
        && (400 <= status < 500 && !RetriedStatus(status) ==> t.kind == Health.Protocol)
        && (200 <= status <= 299 ==> t.kind == if valid then Health.NoFailure else Health.Protocol)
        && (status < 200 || 300 <= status < 400 ==> t.kind == Health.NoFailure)
    ensures AttemptOf(c, a).provider == c.provider && AttemptOf(c, a).model == c.model
  {
  }

  /** An answer that is neither a 2xx nor worth another candidate. */
  predicate Final(a: Answer) {
    a.Http? && !(200 <= a.status <= 299) && !RetriedStatus(a.status)
  }

  predicate AnswersRequest(a: Answer) { a.Http? && 200 <= a.status <= 299 && a.valid }

  /** The attempt list of a request decides its result by its last entry. */
  lemma ResultByLast(cands: seq<Candidate>, max: nat, up: Upstream, o: Health.Options, w: World)
    ensures
      var f := Outcome(cands, max, up, o, w).0;
      var n := |f.attempts|;
      && (n == 0 ==> ResultOf(f) == Result(None, [], CatalogEmpty))
      && (n > 0 ==>
            var a := f.attempts[n - 1];
            ResultOf(f) ==
              if !a.failed && 200 <= a.status <= 299 then Result(Some(Route(a.provider, a.model)), f.attempts, NoError)
              else if !a.retryable then Result(None, f.attempts, UpstreamFailed(a.provider, a.model, a.status))
              else Result(None, f.attempts, LastFailure(a)))
  {
    LoopIsFailover(cands, max, up, o, w);
  }

  /** A request whose attempt got an HTTP status that is neither 2xx nor worth a retry, a 400
      for one, ends there with that status and asks nobody else; one that got a valid 2xx ends
      there with the route that gave it. */
  lemma FinalAnswerEnds(cands: seq<Candidate>, max: nat, up: Upstream, o: Health.Options, w: World, i: nat)
    requires i < |Outcome(cands, max, up, o, w).0.attempts| && i < |Outcome(cands, max, up, o, w).0.picked|
    requires Outcome(cands, max, up, o, w).0.picked[i] < |cands|
    ensures
      var f := Outcome(cands, max, up, o, w).0;
      var c := cands[f.picked[i]];
      var a := up(i, c).answer;
      && (Final(a) || AnswersRequest(a) ==> |f.attempts| == i + 1)
      && (Final(a) ==> ResultOf(f) == Result(None, f.attempts, UpstreamFailed(c.provider, c.model, a.status)))
      && (AnswersRequest(a) ==> ResultOf(f) == Result(Some(Route(c.provider, c.model)), f.attempts, NoError))
  {
    var f := Outcome(cands, max, up, o, w).0;
    var c := cands[f.picked[i]];
    LoopIsFailover(cands, max, up, o, w);
    ResultByLast(cands, max, up, o, w);
    KindOfAnswer(c, up(i, c).answer);
  }

  /** Failures that close the whole provider: the call itself, refused credentials, timeouts,
      rate limits and server failures.  An empty or broken answer and every other 4xx close the
      model; anything else closes nothing. */
  lemma FailureLandsOn(h: Health.Items, o: Health.Options, c: Candidate, r: Reply)
    ensures
      var after := HealthFirst(h, o, c, r);
      match r.answer
      case TransportError(late) =>
        after == Health.Failed(h, o, c.provider, "*", if late then Health.Timeout else Health.Network, r.at)
      case NoAnswer => after == Health.Failed(h, o, c.provider, c.model, Health.Protocol, r.at)
      case Http(status, valid, _) =>
        && (RetriedStatus(status) ==>
              after == Health.Failed(h, o, c.provider, "*", AttemptOf(c, r.answer).kind, r.at))
        && (400 <= status < 500 && !RetriedStatus(status) ==>
              after == Health.Failed(h, o, c.provider, c.model, Health.Protocol, r.at))
        && (200 <= status <= 299 ==>
              after == if valid then Health.Succeeded(h, c.provider, c.model, r.at)
                       else Health.Failed(h, o, c.provider, c.model, Health.Protocol, r.at))
        && (status < 200 || 300 <= status < 400 ==> after == h)
  {
    KindOfAnswer(c, r.answer);
    assert Health.PROVIDER_WIDE == "*";
  }

  /** The Retry-After of a rate limit closes the provider until then, in seconds from the answer
      or as a date; a missing, zero or negative one, and that of any other status, does nothing. */
  lemma RetryAfterIs(c: Candidate, r: Reply)
    ensures
      match r.answer
      case Http(429, _, Seconds(n)) =>
        ExtensionOf(c, r) == if n > 0 then Some(Extension(c.provider, "*", r.at, r.at + n * 1_000_000_000)) else None
      case Http(429, _, Date(d)) =>
        ExtensionOf(c, r) == if d > r.at then Some(Extension(c.provider, "*", r.at, d)) else None
      case _ => ExtensionOf(c, r) == None
  {
    KindOfAnswer(c, r.answer);
  }

  /** So a provider that asks for `n` seconds is not tried before they are over, nor after them
      without a probe, and cools for the longer of its own wish and the rate-limit cooldown. */
  lemma RateLimitHolds(h: Health.Items, o: Health.Options, c: Candidate, r: Reply, n: nat)
    requires r.answer.Http? && r.answer.status == 429 && r.answer.retry == Seconds(n) && n > 0
    requires RouteKey(c.provider, "*") !in h
    ensures
      var after, k := HealthAfter(h, o, c, r), RouteKey(c.provider, "*");
      && k in after && after[k].needsProbe && after[k].lastFailure == Health.RateLimited
      && after[k].cooldownUntil == (if n * 1_000_000_000 > o.rateLimit then r.at + n * 1_000_000_000 else r.at + o.rateLimit)
  {
    KindOfAnswer(c, r.answer);
    RetryAfterIs(c, r);
    Health.CooldownOf(h, o, c.provider, "*", Health.RateLimited, r.at, o.rateLimit);
    assert HealthFirst(h, o, c, r) == Health.Failed(h, o, c.provider, "*", Health.RateLimited, r.at);
  }

  /** Learning hears of a success exactly when the request is answered. */
  lemma LearningHears(w: World, o: Health.Options, c: Candidate, r: Reply)
    ensures WorldAfter(w, o, c, r).stats ==
            Scores.Recorded(w.stats, Scores.Sample(RouteKey(c.provider, c.model), AnswersRequest(r.answer), r.latency))
  {
    KindOfAnswer(c, r.answer);
  }

  /** Three attempts unless the caller says otherwise. */
  lemma AttemptLimit(maxAttempts: int)
    ensures maxAttempts > 0 ==> Limit(maxAttempts) == maxAttempts
    ensures maxAttempts <= 0 ==> Limit(maxAttempts) == 3
  {
  }

  // ---------------------------------------------------------------- names of models

  lemma {:induction false} FirstSlashIs(s: string, i: nat)
    requires i <= |s| && (forall k :: 0 <= k < i ==> s[k] != '/') && (i < |s| ==> s[i] == '/')
    ensures FirstSlash(s) == i
  {
  }

  /** "p/m" names the model m of provider p, with or without "openai/" in front. */
  lemma ProviderAndModel(p: string, m: string, c: Candidate)
    requires p != "" && SlashFree(p)
    ensures p != "openai" ==> (Matches(p + "/" + m, c) <==> c.provider == p && c.model == m)
    ensures Matches("openai/" + p + "/" + m, c) <==> c.provider == p && c.model == m
  {
    var name := p + "/" + m;
    SplitRouteKey(p, m);
    FirstSlashOfKey(p, m);
    assert name == RouteKey(p, m) && name[..|p|] == p && name[|p| + 1..] == m;
    assert ("openai/" + p + "/" + m) == "openai/" + name;
    WithPrefix(name);
    if "openai/" <= name {
      OnlyOpenAi(p, m);
    }
    NotAny(name, |p|);
    NotAny("openai/" + name, 6);
  }

  lemma PrefixHasSlash(m: string)
    ensures "openai/" <= m ==> '/' in m
  {
    if "openai/" <= m {
      assert m[6] == '/';
    }
  }

  /** The prefix is taken off once. */
  lemma WithPrefix(name: string)
    ensures "openai/" <= "openai/" + name && ("openai/" + name)[|"openai/"|..] == name
  {
  }

  lemma NotAny(name: string, i: nat)
    requires i < |name| && name[i] == '/'
    ensures name != "" && name != "auto"
  {
  }

  /** A name that starts with the prefix has it as its provider. */
  lemma OnlyOpenAi(p: string, m: string)
    requires SlashFree(p) && "openai/" <= p + "/" + m
    ensures p == "openai"
  {
    var name := p + "/" + m;
    FirstSlashOfKey(p, m);
    FirstSlashIs(name, 6);
    assert name[..6] == "openai";
  }

  /** A name without a slash names that model of every provider, with or without the prefix. */
  lemma BareModel(m: string, c: Candidate)
    requires SlashFree(m)
    ensures m != "" && m != "auto" ==> (Matches(m, c) <==> c.model == m)
    ensures Matches("openai/" + m, c) <==> c.model == m
  {
    FirstSlashIs(m, |m|);
    WithPrefix(m);
    NotAny("openai/" + m, 6);
    PrefixHasSlash(m);
  }

  /** A slash in front separates nothing. */
  lemma LeadingSlash(m: string, c: Candidate)
    ensures Matches("/" + m, c) <==> c.model == "/" + m
  {
    FirstSlashIs("/" + m, 0);
    NotAny("/" + m, 0);
  }

  /** Without a name, or with "auto", every candidate is meant. */
  lemma AnyModel(c: Candidate)
    ensures Matches("", c) && Matches("auto", c)
  {
  }
}
