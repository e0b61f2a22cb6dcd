/** Requests, recovery probes and interruptions interleaved over one health table
    (`internal/routing/reliable.go`, `internal/routing/health.go`).

    Every section of every request, every finished probe, every interrupted response and every
    operator reset is one atomic step on the shared table, and steps of different requests
    may come in any order.  A rate limit with a deadline takes two sections: the failure, and
    later the extension of the cooldown, before the request goes on. */
module Quarantine {
  import opened Keys
  import opened CatalogModel
  import opened Ranking
  import opened Failover
  import Health
  import Scores

  datatype State = State(health: Health.Items, flights: map<nat, Flight>, extensions: map<nat, Extension>)

  datatype Step =
    | Begin(id: nat, now: Time, cands: seq<Candidate>, max: nat)
    | Turn(id: nat, reply: Reply)
    | ProbeSucceeded(p: string, m: string, at: Time)
    | ProbeFailed(p: string, m: string, at: Time)
    | Interrupted(p: string, m: string, at: Time)
    | Reset

  /** A request starts on candidates the table lets through at that moment. */
  predicate Allowed(s: State, e: Step) {
    match e
    case Begin(id, now, cands, max) =>
      id !in s.flights && id !in s.extensions
      && forall c :: c in cands ==> Routable(c) && Health.IsAvailable(s.health, c.provider, c.model, now)
    case ProbeSucceeded(p, _, _) => SlashFree(p)
    case ProbeFailed(p, _, _) => SlashFree(p)
    case Interrupted(p, _, _) => SlashFree(p)
    case _ => true
  }

  /** A turn of a request finishes a pending extension, tries a candidate, or passes one. */
  function Next(s: State, o: Health.Options, e: Step): State {
    match e
    case Begin(id, now, cands, max) => s.(flights := s.flights[id := Start(cands, max)])
    case Turn(id, reply) =>
      if id in s.extensions then
        s.(health := ExtendedBy(s.health, s.extensions[id]), extensions := s.extensions - {id})
      else if id !in s.flights then s
      else
        var f := s.flights[id];
        if WillTry(f) then
          var c := f.cands[f.pos];
          var x := ExtensionOf(c, reply);
          State(HealthFirst(s.health, o, c, reply), s.flights[id := Try(f, reply)],
                if x.Some? then s.extensions[id := x.value] else s.extensions)
        else s.(flights := s.flights[id := Pass(f)])
    case ProbeSucceeded(p, m, at) => s.(health := Health.Succeeded(s.health, p, m, at))
    case ProbeFailed(p, m, at) => s.(health := Health.ProbeFailedItems(s.health, p, m, at))
    case Interrupted(p, m, at) => s.(health := Health.Failed(s.health, o, p, m, Health.Protocol, at))
    case Reset => s.(health := map[])
  }

  function Run(s: State, o: Health.Options, es: seq<Step>): State
    decreases |es|
  {
    if es == [] then s else Run(Next(s, o, es[0]), o, es[1..])
  }

  predicate Possible(s: State, o: Health.Options, es: seq<Step>)
    decreases |es|
  {
    es == [] || (Allowed(s, es[0]) && Possible(Next(s, o, es[0]), o, es[1..]))
  }

  /** The candidates of `CompleteReliable` may start a request. */
  lemma RankingMayBegin(ctx: Context, models: seq<Model>, ranked: seq<Candidate>, model: string,
                        s: State, id: nat, max: nat)
    requires IsRanking(ctx, models, ranked) && ctx.health == s.health && id !in s.flights && id !in s.extensions
    requires forall m :: m in models ==> SlashFree(m.provider) && m.id != Health.PROVIDER_WIDE
    ensures Allowed(s, Begin(id, ctx.now, Filter(model, ranked), max))
  {
    forall c | c in Filter(model, ranked)
      ensures Routable(c) && Health.IsAvailable(s.health, c.provider, c.model, ctx.now)
    {
      RankedIff(ctx, models, ranked, c);
    }
  }

  // ---------------------------------------------------------------- quarantine

  predicate Quarantined(h: Health.Items, p: string) {
    RouteKey(p, Health.PROVIDER_WIDE) in h && h[RouteKey(p, Health.PROVIDER_WIDE)].needsProbe
  }

  predicate Lifts(e: Step, p: string) {
    e.Reset? || (e.ProbeSucceeded? && e.p == p && e.m == Health.PROVIDER_WIDE)
  }

  ghost predicate RoutableFlights(s: State) {
    forall id :: id in s.flights ==> forall c :: c in s.flights[id].cands ==> Routable(c)
  }

  /** One step ends a quarantine if and only if it is a successful recovery probe of the
      whole provider or an operator reset. */
  lemma OnlyAProbeOrResetLifts(s: State, o: Health.Options, e: Step, p: string)
    requires SlashFree(p) && Quarantined(s.health, p) && RoutableFlights(s) && Allowed(s, e)
    ensures Quarantined(Next(s, o, e).health, p) <==> !Lifts(e, p)
  {
    match e
    case Turn(id, reply) =>
      if id !in s.extensions && id in s.flights && WillTry(s.flights[id]) {
        var f := s.flights[id];
        var c := f.cands[f.pos];
        assert c in f.cands && Routable(c);
        if RouteKey(p, Health.PROVIDER_WIDE) == RouteKey(c.provider, c.model) {
          RouteKeyInjective(p, Health.PROVIDER_WIDE, c.provider, c.model);
        }
      }
    case ProbeSucceeded(q, m, at) =>
      if RouteKey(p, Health.PROVIDER_WIDE) == RouteKey(q, m) {
        RouteKeyInjective(p, Health.PROVIDER_WIDE, q, m);
      }
    case _ =>
  }

  /** A request that has nothing to do with provider `p`. */
  predicate Avoids(f: Flight, p: string) {
    (forall c :: c in f.cands ==> c.provider != p) && (forall a :: a in f.attempts ==> a.provider != p)
  }

  lemma StepAvoids(s: State, o: Health.Options, e: Step, p: string, early: set<nat>)
    requires SlashFree(p) && Quarantined(s.health, p) && Allowed(s, e)
    requires RoutableFlights(s) && early <= s.flights.Keys
    requires forall id :: id in s.flights && id !in early ==> Avoids(s.flights[id], p)
    ensures
      var t := Next(s, o, e);
      RoutableFlights(t) && early <= t.flights.Keys
      && forall id :: id in t.flights && id !in early ==> Avoids(t.flights[id], p)
  {
    match e
    case Begin(id, now, cands, max) =>
      assert Health.Blocked(s.health, RouteKey(p, Health.PROVIDER_WIDE), now);
    case Turn(id, reply) =>
      if id !in s.extensions && id in s.flights && WillTry(s.flights[id]) {
        var f := s.flights[id];
        GoodIsFinal(f.cands[f.pos], reply.answer);
        assert f.cands[f.pos] in f.cands;
      }
    case _ =>
  }

  /** From the moment a provider is quarantined, and in every interleaving of any number of
      requests with probes and interruptions, no request that starts later ranks or attempts
      any of its models, until its recovery probe succeeds or an operator resets the table;
      no amount of time does it. */
  lemma {:induction false} QuarantineHolds(s: State, o: Health.Options, es: seq<Step>, p: string, early: set<nat>)
    requires SlashFree(p) && Quarantined(s.health, p)
    requires RoutableFlights(s) && early <= s.flights.Keys
    requires forall id :: id in s.flights && id !in early ==> Avoids(s.flights[id], p)
    requires Possible(s, o, es) && forall e :: e in es ==> !Lifts(e, p)
    ensures
      var t := Run(s, o, es);
      Quarantined(t.health, p)
      && forall id :: id in t.flights && id !in early ==> Avoids(t.flights[id], p)
    decreases |es|
  {
    if es != [] {
      assert !Lifts(es[0], p);
      OnlyAProbeOrResetLifts(s, o, es[0], p);
      StepAvoids(s, o, es[0], p, early);
      QuarantineHolds(Next(s, o, es[0]), o, es[1..], p, early);
    }
  }

  /** The quarantine begins with the failing attempt itself. */
  lemma FailureQuarantines(s: State, o: Health.Options, id: nat, reply: Reply)
    requires id in s.flights && WillTry(s.flights[id]) && id !in s.extensions
    requires ProviderWide(AttemptOf(s.flights[id].cands[s.flights[id].pos], reply.answer))
    ensures Quarantined(Next(s, o, Turn(id, reply)).health, s.flights[id].cands[s.flights[id].pos].provider)
  {
    GoodIsFinal(s.flights[id].cands[s.flights[id].pos], reply.answer);
  }

  // ---------------------------------------------------------------- recovery probes

  function FirstRoutable(models: seq<Model>, p: string): Option<string> {
    if models == [] then None
    else if models[0].provider == p && models[0].status == Active && models[0].autoRoutable then Some(models[0].id)
    else FirstRoutable(models[1..], p)
  }

  /** The model a due record is probed with, when it can be probed at all. */
  function ProbeModel(configs: set<string>, models: seq<Model>, x: Health.RouteHealth): Option<string> {
    if x.provider !in configs then None
    else if x.model != Health.PROVIDER_WIDE then Some(x.model)
    else FirstRoutable(models, x.provider)
  }

  /** A probe succeeds on any 2xx answer; the body is not looked at. */
  predicate ProbeOk(a: Answer) { a.Http? && Is2xx(a.status) }

  /** What the loop sees when it gets to a record: the configured providers, the catalog, the
      answer to its probe, if it makes one, and the instant afterwards. */
  datatype Sight = Sight(configs: set<string>, models: seq<Model>, answer: Answer, at: Time)

  predicate Probes(x: Health.RouteHealth, v: Sight) { ProbeModel(v.configs, v.models, x).Some? }

  predicate Recovers(x: Health.RouteHealth, v: Sight) { Probes(x, v) && ProbeOk(v.answer) }

  /** What one pass of the recovery loop makes of a due record. */
  function AfterProbe(x: Health.RouteHealth, v: Sight): Health.RouteHealth {
    if !Probes(x, v) then x
    else if ProbeOk(v.answer) then
      Health.RouteHealth(x.provider, x.model, 0, Health.NoFailure, ZERO_TIME, Some(v.at), false)
    else
      var n := Min(x.consecutiveFailures + 1, 8);
      x.(consecutiveFailures := n, cooldownUntil := v.at + n * MINUTE, needsProbe := true)
  }

  method FindProbeModel(configs: set<string>, models: seq<Model>, x: Health.RouteHealth) returns (m: Option<string>)
    ensures m == ProbeModel(configs, models, x)
  {
    if x.provider !in configs {
      return None;
    }
    if x.model != Health.PROVIDER_WIDE {
      return Some(x.model);
    }
    for i := 0 to |models|
      invariant FirstRoutable(models, x.provider) == FirstRoutable(models[i..], x.provider)
    {
      if models[i].provider == x.provider && models[i].status == Active && models[i].autoRoutable {
        return Some(models[i].id);
      }
    }
    m := None;
  }

  function DueKey(x: Health.RouteHealth): string { RouteKey(x.provider, x.model) }

  /** The section that one pass makes for a due record, if it makes one, on whatever record is
      there by then. */
  function PassEvent(x: Health.RouteHealth, v: Sight): seq<Health.Event> {
    if !Probes(x, v) then []
    else if ProbeOk(v.answer) then [Health.OnSuccess(x.provider, x.model, v.at)]
    else [Health.OnProbeFailed(x.provider, x.model, v.at)]
  }

  /** One due record: nothing to probe, or one probe and its section. */
  method ProbeOne(table: Health.Table, v: Sight, item: Health.RouteHealth) returns (ok: bool)
    modifies table
    ensures table.items == Health.Run(old(table.items), table.options, PassEvent(item, v))
    ensures DueKey(item) in old(table.items) && old(table.items)[DueKey(item)] == item ==>
      table.items == old(table.items)[DueKey(item) := AfterProbe(item, v)]
    ensures ok <==> Recovers(item, v)
  {
    var m := FindProbeModel(v.configs, v.models, item);
    if m.None? {
      return false;
    }
    ok := ProbeOk(v.answer);
    OneSection(table.items, table.options, item, v);
    if ok {
      table.Success(item.provider, item.model, v.at);
    } else {
      table.ProbeFailed(item.provider, item.model, v.at);
    }
  }

  lemma OneSection(items: Health.Items, o: Health.Options, x: Health.RouteHealth, v: Sight)
    ensures Health.Run(items, o, PassEvent(x, v)) ==
      if PassEvent(x, v) == [] then items else Health.Apply(items, o, PassEvent(x, v)[0])
    ensures DueKey(x) in items && items[DueKey(x)] == x ==>
      Health.Run(items, o, PassEvent(x, v)) == items[DueKey(x) := AfterProbe(x, v)]
  {
    var es := PassEvent(x, v);
    if es != [] {
      assert es[1..] == [];
      assert Health.Run(Health.Apply(items, o, es[0]), o, []) == Health.Apply(items, o, es[0]);
    }
  }

  /** The records of a list that recover, each by what the loop sees when it gets there. */
  function Recovered(due: seq<Health.RouteHealth>, sight: nat -> Sight): seq<Health.RouteHealth> {
    if due == [] then []
    else
      var n := |due| - 1;
      Recovered(due[..n], sight) + (if Recovers(due[n], sight(n)) then [due[n]] else [])
  }

  lemma {:induction false} RecoveredIff(due: seq<Health.RouteHealth>, sight: nat -> Sight, x: Health.RouteHealth)
    ensures x in Recovered(due, sight) <==> exists i :: 0 <= i < |due| && RecoversAt(due, sight, x, i)
  {
    if due != [] {
      var n := |due| - 1;
      RecoveredIff(due[..n], sight, x);
      assert forall i :: 0 <= i < n ==> (RecoversAt(due[..n], sight, x, i) <==> RecoversAt(due, sight, x, i));
      assert x in Recovered(due, sight) <==> x in Recovered(due[..n], sight) || RecoversAt(due, sight, x, n);
    }
  }

  predicate RecoversAt(due: seq<Health.RouteHealth>, sight: nat -> Sight, x: Health.RouteHealth, i: nat)
    requires i < |due|
  {
    due[i] == x && Recovers(x, sight(i))
  }

  /** The records of `due` are filed under their own keys, each once. */
  ghost predicate DueIn(items: Health.Items, due: seq<Health.RouteHealth>) {
    (forall i :: 0 <= i < |due| ==> DueKey(due[i]) in items && items[DueKey(due[i])] == due[i])
    && forall i, j :: 0 <= i < j < |due| ==> DueKey(due[i]) != DueKey(due[j])
  }

  /** The records of `due` are exactly those due at `now`. */
  ghost predicate AllDue(items: Health.Items, due: seq<Health.RouteHealth>, now: Time) {
    DueIn(items, due) && (forall x :: x in due ==> Health.IsDue(x, now))
    && forall k :: k in items && Health.IsDue(items[k], now) ==> items[k] in due && DueKey(items[k]) == k
  }

  lemma DueKeys(items: Health.Items, due: seq<Health.RouteHealth>, keys: seq<string>, now: Time)
    requires Health.WaitingLabelled(items)
    requires |keys| == |due| && forall i, j :: 0 <= i < j < |keys| ==> keys[i] != keys[j]
    requires forall i :: 0 <= i < |due| ==> keys[i] in items && items[keys[i]] == due[i] && Health.IsDue(due[i], now)
    requires forall k :: k in items && Health.IsDue(items[k], now) ==> k in keys
    ensures AllDue(items, due, now)
  {
    forall i | 0 <= i < |due| ensures keys[i] == DueKey(due[i]) {
      assert items[keys[i]].needsProbe;
    }
    forall k | k in items && Health.IsDue(items[k], now) ensures items[k] in due && DueKey(items[k]) == k {
      var i :| 0 <= i < |keys| && keys[i] == k;
      assert due[i] == items[k];
    }
  }

  predicate Elsewhere(due: seq<Health.RouteHealth>, k: string) {
    forall i :: 0 <= i < |due| ==> DueKey(due[i]) != k
  }

  /** All sections from the start of a pass to its end: before the section of record `n` come
      those that requests and others make in the meantime. */
  function PassEvents(due: seq<Health.RouteHealth>, sight: nat -> Sight, meanwhile: nat -> seq<Health.Event>): seq<Health.Event> {
    if due == [] then []
    else
      var n := |due| - 1;
      PassEvents(due[..n], sight, meanwhile) + (meanwhile(n) + PassEvent(due[n], sight(n)))
  }

  lemma PassOneMore(due: seq<Health.RouteHealth>, n: nat, sight: nat -> Sight, meanwhile: nat -> seq<Health.Event>,
                    before: Health.Items, o: Health.Options)
    requires n < |due|
    ensures
      var so := Health.Run(before, o, PassEvents(due[..n], sight, meanwhile));
      Health.Run(before, o, PassEvents(due[..n + 1], sight, meanwhile)) ==
      Health.Run(Health.Run(so, o, meanwhile(n)), o, PassEvent(due[n], sight(n)))
  {
    assert due[..n + 1][..n] == due[..n];
    var first, others, last := PassEvents(due[..n], sight, meanwhile), meanwhile(n), PassEvent(due[n], sight(n));
    Health.RunConcat(before, o, first, others + last);
    Health.RunConcat(Health.Run(before, o, first), o, others, last);
  }

  lemma RecoveredOneMore(due: seq<Health.RouteHealth>, n: nat, sight: nat -> Sight)
    requires n < |due|
    ensures Recovered(due[..n + 1], sight) ==
            Recovered(due[..n], sight) + (if Recovers(due[n], sight(n)) then [due[n]] else [])
  {
    assert due[..n + 1][..n] == due[..n];
  }

  method ProbeAll(table: Health.Table, due: seq<Health.RouteHealth>, sight: nat -> Sight,
                  meanwhile: nat -> seq<Health.Event>)
    returns (recovered: seq<Health.RouteHealth>)
    modifies table
    ensures table.items == Health.Run(old(table.items), table.options, PassEvents(due, sight, meanwhile))
    ensures recovered == Recovered(due, sight)
  {
    recovered := [];
    ghost var before := table.items;
    for n := 0 to |due|
      invariant table.items == Health.Run(before, table.options, PassEvents(due[..n], sight, meanwhile))
      invariant recovered == Recovered(due[..n], sight)
    {
      RecoveredOneMore(due, n, sight);
      PassOneMore(due, n, sight, meanwhile, before, table.options);
      table.PerformAll(meanwhile(n));
      var ok := ProbeOne(table, sight(n), due[n]);
      if ok {
        recovered := recovered + [due[n]];
      }
    }
    assert due[..|due|] == due;
  }

  /** `ProbeRecovery`, with any sections of requests, interruptions and resets between its own:
      exactly the records due at the start are visited, once each, and each gets the section
      that the answer to its own probe asks for, or none; the report is exactly the records that
      recover, in order. */
  method ProbeRecovery(table: Health.Table, now: Time, sight: nat -> Sight, meanwhile: nat -> seq<Health.Event>)
    returns (recovered: seq<Health.RouteHealth>, ghost due: seq<Health.RouteHealth>)
    modifies table
    ensures Health.WaitingLabelled(old(table.items)) ==>
      AllDue(old(table.items), due, now) && Health.WaitingLabelled(table.items)
    ensures table.items == Health.Run(old(table.items), table.options, PassEvents(due, sight, meanwhile))
    ensures recovered == Recovered(due, sight)
  {
    var items, keys := table.DueForProbe(now);
    due := items;
    if Health.WaitingLabelled(table.items) {
      DueKeys(table.items, items, keys, now);
      Health.RunKeepsWaitingLabelled(table.items, table.options, PassEvents(due, sight, meanwhile));
    }
    recovered := ProbeAll(table, items, sight, meanwhile);
  }

  predicate UntouchedBy(meanwhile: nat -> seq<Health.Event>, n: nat, k: string) {
    forall j :: 0 <= j < n ==> Health.Untouched(meanwhile(j), k)
  }

  /** The table when the pass has made its first `n` turns. */
  function Midway(before: Health.Items, o: Health.Options, due: seq<Health.RouteHealth>, n: nat,
                  sight: nat -> Sight, meanwhile: nat -> seq<Health.Event>): Health.Items
    requires n <= |due|
  {
    Health.Run(before, o, PassEvents(due[..n], sight, meanwhile))
  }

  lemma TurnElsewhere(before: Health.Items, o: Health.Options, due: seq<Health.RouteHealth>, n: nat,
                      sight: nat -> Sight, meanwhile: nat -> seq<Health.Event>, k: string)
    requires n < |due| && Health.Untouched(meanwhile(n), k) && DueKey(due[n]) != k
    ensures Health.SameAt(Midway(before, o, due, n, sight, meanwhile), Midway(before, o, due, n + 1, sight, meanwhile), k)
  {
    var so := Midway(before, o, due, n, sight, meanwhile);
    PassOneMore(due, n, sight, meanwhile, before, o);
    Health.RunElsewhere(so, o, meanwhile(n), k);
    Health.RunElsewhere(Health.Run(so, o, meanwhile(n)), o, PassEvent(due[n], sight(n)), k);
  }

  lemma TurnHere(before: Health.Items, o: Health.Options, due: seq<Health.RouteHealth>, n: nat,
                 sight: nat -> Sight, meanwhile: nat -> seq<Health.Event>)
    requires n < |due| && Health.Untouched(meanwhile(n), DueKey(due[n]))
    requires
      var so := Midway(before, o, due, n, sight, meanwhile);
      DueKey(due[n]) in so && so[DueKey(due[n])] == due[n]
    ensures
      var after, k := Midway(before, o, due, n + 1, sight, meanwhile), DueKey(due[n]);
      k in after && after[k] == AfterProbe(due[n], sight(n))
  {
    var so := Midway(before, o, due, n, sight, meanwhile);
    PassOneMore(due, n, sight, meanwhile, before, o);
    Health.RunElsewhere(so, o, meanwhile(n), DueKey(due[n]));
    OneSection(Health.Run(so, o, meanwhile(n)), o, due[n], sight(n));
  }

  /** Between two turns of the pass a record changes only by its own turn, if nobody touches it. */
  lemma {:induction false} TurnsElsewhere(before: Health.Items, o: Health.Options, due: seq<Health.RouteHealth>,
                                          lo: nat, hi: nat, sight: nat -> Sight,
                                          meanwhile: nat -> seq<Health.Event>, k: string)
    requires lo <= hi <= |due| && UntouchedBy(meanwhile, hi, k)
    requires forall i :: lo <= i < hi ==> DueKey(due[i]) != k
    ensures Health.SameAt(Midway(before, o, due, lo, sight, meanwhile), Midway(before, o, due, hi, sight, meanwhile), k)
    decreases hi
  {
    if lo != hi {
      TurnsElsewhere(before, o, due, lo, hi - 1, sight, meanwhile, k);
      TurnElsewhere(before, o, due, hi - 1, sight, meanwhile, k);
    }
  }

  /** A record that was not due and that nobody touches meanwhile is as before. */
  lemma LeftByPass(before: Health.Items, o: Health.Options, due: seq<Health.RouteHealth>, sight: nat -> Sight,
                   meanwhile: nat -> seq<Health.Event>, k: string)
    requires Elsewhere(due, k) && UntouchedBy(meanwhile, |due|, k)
    ensures Health.SameAt(before, Health.Run(before, o, PassEvents(due, sight, meanwhile)), k)
  {
    TurnsElsewhere(before, o, due, 0, |due|, sight, meanwhile, k);
    assert due[..|due|] == due;
  }

  /** A due record that nobody else touches meanwhile recovers, backs off or is left alone by
      its own probe, whatever happens to other routes. */
  lemma DueIsProbed(before: Health.Items, o: Health.Options, due: seq<Health.RouteHealth>, sight: nat -> Sight,
                    meanwhile: nat -> seq<Health.Event>, i: nat)
    requires DueIn(before, due) && i < |due| && UntouchedBy(meanwhile, |due|, DueKey(due[i]))
    ensures
      var after, k := Health.Run(before, o, PassEvents(due, sight, meanwhile)), DueKey(due[i]);
      k in after && after[k] == AfterProbe(due[i], sight(i))
  {
    TurnsElsewhere(before, o, due, 0, i, sight, meanwhile, DueKey(due[i]));
    TurnHere(before, o, due, i, sight, meanwhile);
    TurnsElsewhere(before, o, due, i + 1, |due|, sight, meanwhile, DueKey(due[i]));
    assert due[..|due|] == due;
  }

  // ---------------------------------------------------------------- in plain values

  /** What a due record is probed with: its own model, or for a provider the first of its models
      in the catalog that is active and on the routes; nothing without a configuration. */
  lemma ProbedWith(configs: set<string>, models: seq<Model>, x: Health.RouteHealth, i: nat)
    ensures x.provider !in configs ==> ProbeModel(configs, models, x) == None
    ensures x.provider in configs && x.model != "*" ==> ProbeModel(configs, models, x) == Some(x.model)
    ensures x.provider in configs && x.model == "*" && i < |models| && OnRoutes(models[i], x.provider)
            && (forall j :: 0 <= j < i ==> !OnRoutes(models[j], x.provider)) ==>
      ProbeModel(configs, models, x) == Some(models[i].id)
    ensures x.provider in configs && x.model == "*" && (forall j :: 0 <= j < |models| ==> !OnRoutes(models[j], x.provider)) ==>
      ProbeModel(configs, models, x) == None
  {
    FirstOnRoutes(models, x.provider, i);
  }

  predicate OnRoutes(m: Model, p: string) { m.provider == p && m.status == Active && m.autoRoutable }

  lemma {:induction false} FirstOnRoutes(models: seq<Model>, p: string, i: nat)
    ensures i < |models| && OnRoutes(models[i], p) && (forall j :: 0 <= j < i ==> !OnRoutes(models[j], p)) ==>
      FirstRoutable(models, p) == Some(models[i].id)
    ensures (forall j :: 0 <= j < |models| ==> !OnRoutes(models[j], p)) ==> FirstRoutable(models, p) == None
  {
    if models != [] && !OnRoutes(models[0], p) {
      FirstOnRoutes(models[1..], p, if i > 0 then i - 1 else 0);
      assert forall j :: 0 < j < |models| ==> models[1..][j - 1] == models[j];
    }
  }

  /** A pass makes a success of a 2xx answer, whatever its body, a failed probe of any other, and
      nothing of a record it cannot probe. */
  lemma PassMakes(x: Health.RouteHealth, v: Sight)
    ensures PassEvent(x, v) ==
      if ProbeModel(v.configs, v.models, x) == None then []
      else if v.answer.Http? && v.answer.status >= 200 && v.answer.status <= 299
           then [Health.OnSuccess(x.provider, x.model, v.at)]
           else [Health.OnProbeFailed(x.provider, x.model, v.at)]
    ensures Recovers(x, v) <==> PassEvent(x, v) == [Health.OnSuccess(x.provider, x.model, v.at)]
  {
  }

  /** An interrupted response cools its model, not its provider, as a broken answer does. */
  lemma InterruptionCools(s: State, o: Health.Options, p: string, m: string, at: Time)
    ensures
      var t := Next(s, o, Interrupted(p, m, at));
      && t.flights == s.flights && t.extensions == s.extensions
      && t.health == Health.Failed(s.health, o, p, m, Health.Protocol, at)
      && (RouteKey(p, m) !in s.health ==> t.health[RouteKey(p, m)].cooldownUntil == at + o.protocol)
  {
    Health.CooldownOf(s.health, o, p, m, Health.Protocol, at, o.protocol);
  }

  // ---------------------------------------------------------------- a request on its own

  /** The turns of a request that nobody disturbs: one for each candidate, and one more for each
      deadline of a rate limit. */
  function Turns(id: nat, f: Flight, up: Upstream): seq<Step>
    decreases if f.stop.Some? then 0 else 1, |f.cands| - f.pos
  {
    if f.stop.Some? then []
    else if WillTry(f) then
      var c := f.cands[f.pos];
      var r := up(|f.attempts|, c);
      (if ExtensionOf(c, r).Some? then [Turn(id, r), Turn(id, r)] else [Turn(id, r)]) + Turns(id, Try(f, r), up)
    else [Turn(id, Reply(NoAnswer, 0, 0))] + Turns(id, Pass(f), up)
  }

  lemma RunOne(s: State, o: Health.Options, e: Step, rest: seq<Step>)
    ensures Run(s, o, [e] + rest) == Run(Next(s, o, e), o, rest)
  {
    assert ([e] + rest)[1..] == rest;
  }

  /** One candidate: its section, and the second one where there is a deadline. */
  lemma TryAlone(s: State, o: Health.Options, id: nat, up: Upstream, rest: seq<Step>)
    requires id in s.flights && id !in s.extensions && WillTry(s.flights[id])
    ensures
      var f := s.flights[id];
      var c := f.cands[f.pos];
      var r := up(|f.attempts|, c);
      Run(s, o, (if ExtensionOf(c, r).Some? then [Turn(id, r), Turn(id, r)] else [Turn(id, r)]) + rest)
      == Run(s.(health := HealthAfter(s.health, o, c, r), flights := s.flights[id := Try(f, r)]), o, rest)
  {
    var f := s.flights[id];
    var c := f.cands[f.pos];
    var r := up(|f.attempts|, c);
    var x := ExtensionOf(c, r);
    var one := Next(s, o, Turn(id, r));
    if x.Some? {
      assert [Turn(id, r), Turn(id, r)] + rest == [Turn(id, r)] + ([Turn(id, r)] + rest);
      RunOne(s, o, Turn(id, r), [Turn(id, r)] + rest);
      RunOne(one, o, Turn(id, r), rest);
      assert s.extensions[id := x.value] - {id} == s.extensions;
    } else {
      RunOne(s, o, Turn(id, r), rest);
    }
  }

  /** The turns of request `id` make of `s` what the failover loop makes of flight and table. */
  predicate WalksAlone(s: State, o: Health.Options, id: nat, up: Upstream, stats: Scores.Stats)
    requires id in s.flights
  {
    var (g, w) := Walk(s.flights[id], up, o, World(s.health, stats));
    Run(s, o, Turns(id, s.flights[id], up)) == s.(health := w.health, flights := s.flights[id := g])
  }

  lemma TryThenAlone(s: State, o: Health.Options, id: nat, up: Upstream, stats: Scores.Stats, r: Reply)
    requires id in s.flights && id !in s.extensions && WillTry(s.flights[id])
    requires r == up(|s.flights[id].attempts|, s.flights[id].cands[s.flights[id].pos])
    requires
      var f := s.flights[id];
      var c := f.cands[f.pos];
      var t := s.(health := HealthAfter(s.health, o, c, r), flights := s.flights[id := Try(f, r)]);
      WalksAlone(t, o, id, up, WorldAfter(World(s.health, stats), o, c, r).stats)
    ensures WalksAlone(s, o, id, up, stats)
  {
    var f := s.flights[id];
    TryAlone(s, o, id, up, Turns(id, Try(f, r), up));
    WalkTry(f, up, o, World(s.health, stats), r);
  }

  lemma PassThenAlone(s: State, o: Health.Options, id: nat, up: Upstream, stats: Scores.Stats)
    requires id in s.flights && id !in s.extensions && s.flights[id].stop.None? && !WillTry(s.flights[id])
    requires WalksAlone(s.(flights := s.flights[id := Pass(s.flights[id])]), o, id, up, stats)
    ensures WalksAlone(s, o, id, up, stats)
  {
    var f := s.flights[id];
    RunOne(s, o, Turn(id, Reply(NoAnswer, 0, 0)), Turns(id, Pass(f), up));
    WalkPass(f, up, o, World(s.health, stats));
  }

  /** A request that nobody disturbs makes of its flight and of the table what the failover loop
      makes of them, and touches no other request. */
  lemma {:induction false} AloneIsWalk(s: State, o: Health.Options, id: nat, up: Upstream, stats: Scores.Stats)
    requires id in s.flights && id !in s.extensions
    ensures WalksAlone(s, o, id, up, stats)
    decreases if s.flights[id].stop.Some? then 0 else 1, |s.flights[id].cands| - s.flights[id].pos
  {
    var f := s.flights[id];
    if f.stop.Some? {
      assert s.flights[id := f] == s.flights;
    } else if WillTry(f) {
      var c := f.cands[f.pos];
      var r := up(|f.attempts|, c);
      var t := s.(health := HealthAfter(s.health, o, c, r), flights := s.flights[id := Try(f, r)]);
      AloneIsWalk(t, o, id, up, WorldAfter(World(s.health, stats), o, c, r).stats);
      TryThenAlone(s, o, id, up, stats, r);
    } else {
      AloneIsWalk(s.(flights := s.flights[id := Pass(f)]), o, id, up, stats);
      PassThenAlone(s, o, id, up, stats);
    }
  }
}
