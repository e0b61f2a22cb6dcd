/** Cooldown and recovery of routes (`internal/routing/health.go`).  The table maps the key
    of a route, or of a whole provider under the model name `*`, to its record.  Each method
    of the class is proved equal to a function on the table; the lemmas speak about those
    functions. */
module Health {
  import opened Keys

  /** `NoFailure` is the empty failure kind. */
  datatype FailureKind = NoFailure | Network | Timeout | RateLimited | Server | Auth | Protocol

  const PROVIDER_WIDE: string := "*"

  datatype Options = Options(network: nat, rateLimit: nat, server: nat, auth: nat, protocol: nat)

  /** `NewHealth` fills in every cooldown that is zero. */
  function WithDefaults(o: Options): (r: Options)
    ensures r.network > 0 && r.rateLimit > 0 && r.server > 0 && r.auth > 0 && r.protocol > 0
  {
    Options(
      if o.network == 0 then 15 * SECOND else o.network,
      if o.rateLimit == 0 then MINUTE else o.rateLimit,
      if o.server == 0 then 30 * SECOND else o.server,
      if o.auth == 0 then 30 * MINUTE else o.auth,
      if o.protocol == 0 then 5 * MINUTE else o.protocol)
  }

  function BaseCooldown(o: Options, kind: FailureKind): nat {
    match kind
    case RateLimited => o.rateLimit
    case Server => o.server
    case Auth => o.auth
    case Protocol => o.protocol
    case _ => o.network
  }

  datatype RouteHealth = RouteHealth(
    provider: string, model: string,
    consecutiveFailures: nat, lastFailure: FailureKind,
    cooldownUntil: Time, lastSuccessAt: Option<Time>, needsProbe: bool)

  type Items = map<string, RouteHealth>

  /** The zero record Go reads for a missing key. */
  const BLANK: RouteHealth := RouteHealth("", "", 0, NoFailure, ZERO_TIME, None, false)

  /** The record of a route, relabelled for it. */
  function Record(items: Items, p: string, m: string): RouteHealth {
    var k := RouteKey(p, m);
    (if k in items then items[k] else BLANK).(provider := p, model := m)
  }

  function Failed(items: Items, o: Options, p: string, m: string, kind: FailureKind, now: Time): Items {
    var x := Record(items, p, m);
    var n := x.consecutiveFailures + 1;
    items[RouteKey(p, m) := x.(consecutiveFailures := n, lastFailure := kind, needsProbe := true,
                               cooldownUntil := now + BaseCooldown(o, kind) * Min(n, 4))]
  }

  /** The second section of `FailUntil`, on whatever record is there by then; a missing one
      reads as the zero record, without labels. */
  function Extended(items: Items, p: string, m: string, now: Time, until: Time): Items {
    var k := RouteKey(p, m);
    var x := if k in items then items[k] else BLANK;
    if until > now && until > x.cooldownUntil then items[k := x.(cooldownUntil := until)] else items
  }

  /** Both sections of `FailUntil`, with nothing in between. */
  function FailedUntil(items: Items, o: Options, p: string, m: string, kind: FailureKind,
                       now: Time, until: Time): Items {
    Extended(Failed(items, o, p, m, kind, now), p, m, now, until)
  }

  function ProbeFailedItems(items: Items, p: string, m: string, now: Time): Items {
    var x := Record(items, p, m);
    var n := Min(x.consecutiveFailures + 1, 8);
    items[RouteKey(p, m) := x.(consecutiveFailures := n, needsProbe := true, cooldownUntil := now + n * MINUTE)]
  }

  function Succeeded(items: Items, p: string, m: string, now: Time): Items {
    items[RouteKey(p, m) := Record(items, p, m).(consecutiveFailures := 0, lastFailure := NoFailure,
                            cooldownUntil := ZERO_TIME, needsProbe := false, lastSuccessAt := Some(now))]
  }

  predicate Blocked(items: Items, key: string, now: Time) {
    key in items && (items[key].cooldownUntil > now || items[key].needsProbe)
  }

  predicate IsAvailable(items: Items, p: string, m: string, now: Time) {
    !Blocked(items, RouteKey(p, PROVIDER_WIDE), now) && !Blocked(items, RouteKey(p, m), now)
  }

  /** What the scan of all records by their own labels looks for. */
  predicate LabelBlocks(items: Items, p: string, now: Time) {
    exists k :: k in items && items[k].provider == p && items[k].model == PROVIDER_WIDE
                && (items[k].cooldownUntil > now || items[k].needsProbe)
  }

  // ---------------------------------------------------------------- the class

  class Table {
    const options: Options
    var items: Items

    constructor (o: Options)
      ensures items == map[] && options == WithDefaults(o)
    {
      options := WithDefaults(o);
      items := map[];
    }

    method Fail(p: string, m: string, kind: FailureKind, now: Time)
      modifies this
      ensures items == Failed(old(items), options, p, m, kind, now)
    {
      var key := RouteKey(p, m);
      var x := Record(items, p, m);
      x := x.(consecutiveFailures := x.consecutiveFailures + 1, lastFailure := kind, needsProbe := true);
      var duration := options.network;
      match kind {
        case RateLimited => duration := options.rateLimit;
        case Server => duration := options.server;
        case Auth => duration := options.auth;
        case Protocol => duration := options.protocol;
        case _ =>
      }
      var mult := x.consecutiveFailures;
      if mult > 4 {
        mult := 4;
      }
      x := x.(cooldownUntil := now + duration * mult);
      items := items[key := x];
    }

    method FailUntil(p: string, m: string, kind: FailureKind, now: Time, until: Time)
      modifies this
      ensures items == FailedUntil(old(items), options, p, m, kind, now, until)
    {
      Fail(p, m, kind, now);
      Extend(p, m, now, until);
    }

    /** The rest of `FailUntil`, which takes the lock again. */
    method Extend(p: string, m: string, now: Time, until: Time)
      modifies this
      ensures items == Extended(old(items), p, m, now, until)
    {
      if !(until > now) {
        return;
      }
      var key := RouteKey(p, m);
      var x := if key in items then items[key] else BLANK;
      if until > x.cooldownUntil {
        x := x.(cooldownUntil := until);
        items := items[key := x];
      }
    }

    /** Sections of others, one after the other. */
    method PerformAll(es: seq<Event>)
      modifies this
      ensures items == Run(old(items), options, es)
    {
      for n := 0 to |es|
        invariant Run(old(items), options, es) == Run(items, options, es[n..])
      {
        assert es[n..][1..] == es[n + 1..];
        match es[n] {
          case OnFail(p, m, kind, now) => Fail(p, m, kind, now);
          case OnExtend(p, m, now, until) => Extend(p, m, now, until);
          case OnProbeFailed(p, m, now) => ProbeFailed(p, m, now);
          case OnSuccess(p, m, now) => Success(p, m, now);
          case OnClear => Clear();
        }
      }
    }

    method ProbeFailed(p: string, m: string, now: Time)
      modifies this
      ensures items == ProbeFailedItems(old(items), p, m, now)
    {
      var x := Record(items, p, m);
      x := x.(needsProbe := true, consecutiveFailures := x.consecutiveFailures + 1);
      if x.consecutiveFailures > 8 {
        x := x.(consecutiveFailures := 8);
      }
      x := x.(cooldownUntil := now + x.consecutiveFailures * MINUTE);
      items := items[RouteKey(p, m) := x];
    }

    method Success(p: string, m: string, now: Time)
      modifies this
      ensures items == Succeeded(old(items), p, m, now)
    {
      var x := Record(items, p, m);
      x := x.(consecutiveFailures := 0, lastFailure := NoFailure);
      x := x.(cooldownUntil := ZERO_TIME, needsProbe := false, lastSuccessAt := Some(now));
      items := items[RouteKey(p, m) := x];
    }

    method Clear()
      modifies this
      ensures items == map[]
    {
      items := map[];
    }

    /** Loops over the provider-wide key and the route's own key. */
    method Available(p: string, m: string, now: Time) returns (ok: bool)
      ensures ok <==> IsAvailable(items, p, m, now)
    {
      var keys := [RouteKey(p, PROVIDER_WIDE), RouteKey(p, m)];
      for i := 0 to 2
        invariant forall j :: 0 <= j < i ==> !Blocked(items, keys[j], now)
      {
        if keys[i] in items && (items[keys[i]].cooldownUntil > now || items[keys[i]].needsProbe) {
          assert Blocked(items, keys[i], now);
          return false;
        }
      }
      assert !Blocked(items, keys[0], now) && !Blocked(items, keys[1], now);
      ok := true;
    }

    /** Every record whose probe is pending and whose cooldown is over, once, in map order;
        `keys` says under which keys they are filed. */
    method DueForProbe(now: Time) returns (due: seq<RouteHealth>, ghost keys: seq<string>)
      ensures |keys| == |due| && forall i, j :: 0 <= i < j < |keys| ==> keys[i] != keys[j]
      ensures forall i :: 0 <= i < |due| ==> keys[i] in items && items[keys[i]] == due[i] && IsDue(due[i], now)
      ensures forall k :: k in items && IsDue(items[k], now) ==> k in keys
    {
      due, keys := [], [];
      var todo := items.Keys;
      while todo != {}
        invariant todo <= items.Keys
        invariant |keys| == |due| && forall i, j :: 0 <= i < j < |keys| ==> keys[i] != keys[j]
        invariant forall i :: 0 <= i < |due| ==>
          keys[i] in items && keys[i] !in todo && items[keys[i]] == due[i] && IsDue(due[i], now)
        invariant forall k :: k in items && k !in todo && IsDue(items[k], now) ==> k in keys
      {
        var k :| k in todo;
        var x := items[k];
        if x.needsProbe && !(x.cooldownUntil > now) {
          due := due + [x];
          keys := keys + [k];
        }
        todo := todo - {k};
      }
    }

    /** `providerHealthAvailable`: a scan of all records by their own labels. */
    method ProviderAvailable(p: string, now: Time) returns (ok: bool)
      ensures ok <==> !LabelBlocks(items, p, now)
    {
      var todo := items.Keys;
      while todo != {}
        invariant todo <= items.Keys
        invariant forall k :: k in items.Keys - todo ==>
          !(items[k].provider == p && items[k].model == PROVIDER_WIDE
            && (items[k].cooldownUntil > now || items[k].needsProbe))
      {
        var k :| k in todo;
        var x := items[k];
        if x.provider == p && x.model == PROVIDER_WIDE && (x.cooldownUntil > now || x.needsProbe) {
          return false;
        }
        todo := todo - {k};
      }
      ok := true;
    }
  }

  // ---------------------------------------------------------------- runs of sections

  /** A record is filed under its own route, and a record that waits for no probe carries
      no cooldown and no failure streak. */
  predicate RecordOk(k: string, x: RouteHealth) {
    k == RouteKey(x.provider, x.model) && SlashFree(x.provider)
    && (x.needsProbe <==> x.consecutiveFailures > 0)
    && (!x.needsProbe ==> x.cooldownUntil == ZERO_TIME && x.lastFailure == NoFailure)
  }

  ghost predicate Consistent(items: Items) { forall k :: k in items ==> RecordOk(k, items[k]) }

  /** One section each; `FailUntil` is an `OnFail` and, later, an `OnExtend`. */
  datatype Event =
    | OnFail(p: string, m: string, kind: FailureKind, now: Time)
    | OnExtend(p: string, m: string, now: Time, until: Time)
    | OnProbeFailed(p: string, m: string, now: Time)
    | OnSuccess(p: string, m: string, now: Time)
    | OnClear

  function Apply(items: Items, o: Options, e: Event): Items {
    match e
    case OnFail(p, m, kind, now) => Failed(items, o, p, m, kind, now)
    case OnExtend(p, m, now, until) => Extended(items, p, m, now, until)
    case OnProbeFailed(p, m, now) => ProbeFailedItems(items, p, m, now)
    case OnSuccess(p, m, now) => Succeeded(items, p, m, now)
    case OnClear => map[]
  }

  function Run(items: Items, o: Options, es: seq<Event>): Items
    decreases |es|
  {
    if es == [] then items else Run(Apply(items, o, es[0]), o, es[1..])
  }

  lemma {:induction false} RunConcat(items: Items, o: Options, a: seq<Event>, b: seq<Event>)
    ensures Run(items, o, a + b) == Run(Run(items, o, a), o, b)
    decreases |a|
  {
    if a == [] {
      assert a + b == b;
    } else {
      assert (a + b)[1..] == a[1..] + b;
      RunConcat(Apply(items, o, a[0]), o, a[1..], b);
    }
  }

  predicate Touches(e: Event, k: string) { e.OnClear? || RouteKey(e.p, e.m) == k }

  predicate Untouched(es: seq<Event>, k: string) { forall e :: e in es ==> !Touches(e, k) }

  predicate SameAt(a: Items, b: Items, k: string) { (k in a <==> k in b) && (k in a && k in b ==> a[k] == b[k]) }

  /** Sections on other routes leave a record as it is. */
  lemma {:induction false} RunElsewhere(items: Items, o: Options, es: seq<Event>, k: string)
    requires Untouched(es, k)
    ensures SameAt(items, Run(items, o, es), k)
    decreases |es|
  {
    if es != [] {
      assert !Touches(es[0], k);
      RunElsewhere(Apply(items, o, es[0]), o, es[1..], k);
    }
  }

  predicate Addressed(e: Event) { e.OnClear? || SlashFree(e.p) }

  /** The second section finds its record gone, or recovered in the meantime. */
  predicate ComesLate(items: Items, e: Event) {
    e.OnExtend? && e.until > e.now
    && !(RouteKey(e.p, e.m) in items && items[RouteKey(e.p, e.m)].needsProbe)
  }

  lemma UpdatedConsistent(items: Items, k: string, x: RouteHealth)
    requires Consistent(items)
    ensures Consistent(items[k := x]) <==> RecordOk(k, x)
  {
    assert items[k := x][k] == x;
  }

  /** A section keeps the table consistent if and only if it is not the second section of a
      `FailUntil` that comes late. */
  lemma StepKeepsConsistentIff(items: Items, o: Options, e: Event)
    requires Consistent(items) && Addressed(e)
    ensures Consistent(Apply(items, o, e)) <==> !ComesLate(items, e)
  {
    if !e.OnClear? {
      var k := RouteKey(e.p, e.m);
      assert k in items ==> RecordOk(k, items[k]);
      if k in Apply(items, o, e) {
        UpdatedConsistent(items, k, Apply(items, o, e)[k]);
      }
    }
  }

  /** No second section of the run comes late. */
  predicate InTime(items: Items, o: Options, es: seq<Event>)
    decreases |es|
  {
    es == [] || (!ComesLate(items, es[0]) && InTime(Apply(items, o, es[0]), o, es[1..]))
  }

  lemma {:induction false} RunKeepsConsistent(items: Items, o: Options, es: seq<Event>)
    requires Consistent(items) && (forall e :: e in es ==> Addressed(e)) && InTime(items, o, es)
    ensures Consistent(Run(items, o, es))
    decreases |es|
  {
    if es != [] {
      assert Addressed(es[0]);
      StepKeepsConsistentIff(items, o, es[0]);
      RunKeepsConsistent(Apply(items, o, es[0]), o, es[1..]);
    }
  }

  /** A second section is in time when, since the first, the route has neither succeeded nor
      been cleared, whatever else has happened. */
  lemma {:induction false} InTimeWhenUndisturbed(items: Items, o: Options, p: string, m: string, es: seq<Event>,
                                                 now: Time, until: Time)
    requires RouteKey(p, m) in items && items[RouteKey(p, m)].needsProbe
    requires forall e :: e in es ==> !e.OnClear? && !(e.OnSuccess? && RouteKey(e.p, e.m) == RouteKey(p, m))
    ensures !ComesLate(Run(items, o, es), OnExtend(p, m, now, until))
    decreases |es|
  {
    if es != [] {
      assert !es[0].OnClear? && !(es[0].OnSuccess? && RouteKey(es[0].p, es[0].m) == RouteKey(p, m));
      InTimeWhenUndisturbed(Apply(items, o, es[0]), o, p, m, es[1..], now, until);
    }
  }

  predicate IsHealthy(x: RouteHealth, now: Time) { !x.needsProbe && !(x.cooldownUntil > now) }
  predicate IsCooling(x: RouteHealth, now: Time) { x.needsProbe && x.cooldownUntil > now }
  predicate IsDue(x: RouteHealth, now: Time) { x.needsProbe && !(x.cooldownUntil > now) }

  ghost predicate Classified(items: Items, now: Time) {
    forall k :: k in items ==>
      (IsHealthy(items[k], now) || IsCooling(items[k], now) || IsDue(items[k], now))
      && (IsHealthy(items[k], now) <==> items[k].consecutiveFailures == 0)
  }

  /** In every run from the empty table without a late second section, at every instant: each
      record is healthy, cooling or due, and healthy exactly when its failure streak is empty;
      availability does not depend on the clock, so that time alone never restores a route;
      and the scan by labels agrees with the keyed lookup. */
  lemma ReachableTable(o: Options, es: seq<Event>, p: string, m: string, now: Time, later: Time)
    requires (forall e :: e in es ==> Addressed(e)) && InTime(map[], o, es)
    requires SlashFree(p)
    ensures
      var items := Run(map[], o, es);
      && Classified(items, now)
      && (IsAvailable(items, p, m, now) <==> IsAvailable(items, p, m, later))
      && (Blocked(items, RouteKey(p, PROVIDER_WIDE), now) <==> LabelBlocks(items, p, now))
  {
    RunKeepsConsistent(map[], o, es);
    ConsistentTable(Run(map[], o, es), p, m, now, later);
  }

  lemma ConsistentTable(items: Items, p: string, m: string, now: Time, later: Time)
    requires Consistent(items) && SlashFree(p)
    ensures Classified(items, now)
    ensures IsAvailable(items, p, m, now) <==> IsAvailable(items, p, m, later)
    ensures Blocked(items, RouteKey(p, PROVIDER_WIDE), now) <==> LabelBlocks(items, p, now)
  {
    var wide := RouteKey(p, PROVIDER_WIDE);
    assert wide in items ==> RecordOk(wide, items[wide]);
    assert RouteKey(p, m) in items ==> RecordOk(RouteKey(p, m), items[RouteKey(p, m)]);
    if wide in items {
      RouteKeyInjective(p, PROVIDER_WIDE, items[wide].provider, items[wide].model);
    }
  }

  /** A late second section breaks all three: after a success in between, the record is neither
      healthy nor cooling nor due until the deadline, and then the route comes back without a
      probe. */
  lemma LateAfterSuccess(o: Options, p: string, kind: FailureKind, failed: Time, probed: Time, until: Time)
    requires SlashFree(p) && failed < until
    ensures
      var items := Run(map[], o, [OnFail(p, PROVIDER_WIDE, kind, failed), OnSuccess(p, PROVIDER_WIDE, probed),
                                  OnExtend(p, PROVIDER_WIDE, failed, until)]);
      var k := RouteKey(p, PROVIDER_WIDE);
      && k in items && !IsHealthy(items[k], failed) && !IsCooling(items[k], failed) && !IsDue(items[k], failed)
      && !IsAvailable(items, p, PROVIDER_WIDE, failed) && IsAvailable(items, p, PROVIDER_WIDE, until)
  {
    ThreeSections(map[], o, OnFail(p, PROVIDER_WIDE, kind, failed), OnSuccess(p, PROVIDER_WIDE, probed),
                  OnExtend(p, PROVIDER_WIDE, failed, until));
  }

  /** After a reset in between it files a record without labels: the keyed lookup blocks the
      provider and the scan by labels does not. */
  lemma LateAfterClear(o: Options, p: string, kind: FailureKind, failed: Time, until: Time)
    requires SlashFree(p) && failed < until
    ensures
      var items := Run(map[], o, [OnFail(p, PROVIDER_WIDE, kind, failed), OnClear,
                                  OnExtend(p, PROVIDER_WIDE, failed, until)]);
      Blocked(items, RouteKey(p, PROVIDER_WIDE), failed) && !LabelBlocks(items, p, failed)
  {
    ThreeSections(map[], o, OnFail(p, PROVIDER_WIDE, kind, failed), OnClear,
                  OnExtend(p, PROVIDER_WIDE, failed, until));
  }

  lemma ThreeSections(items: Items, o: Options, a: Event, b: Event, c: Event)
    ensures Run(items, o, [a, b, c]) == Apply(Apply(Apply(items, o, a), o, b), o, c)
  {
    var one := Apply(items, o, a);
    var two := Apply(one, o, b);
    assert [a, b, c][1..] == [b, c] && [b, c][1..] == [c] && [c][1..] == [];
    assert Run(one, o, [b, c]) == Run(two, o, [c]);
    assert Run(two, o, [c]) == Run(Apply(two, o, c), o, []);
  }

  /** What holds with late second sections, too: a record that waits for a probe is filed
      under its own route. */
  ghost predicate WaitingLabelled(items: Items) {
    forall k :: k in items && items[k].needsProbe ==> k == RouteKey(items[k].provider, items[k].model)
  }

  lemma {:induction false} RunKeepsWaitingLabelled(items: Items, o: Options, es: seq<Event>)
    requires WaitingLabelled(items)
    ensures WaitingLabelled(Run(items, o, es))
    decreases |es|
  {
    if es != [] {
      RunKeepsWaitingLabelled(Apply(items, o, es[0]), o, es[1..]);
    }
  }

  /** A success clears exactly the record it is about: a route is then available unless its
      provider is blocked as a whole, and a provider probe frees the provider's routes but for
      those with a record of their own. */
  lemma SuccessRestores(items: Items, p: string, m: string, other: string, now: Time, later: Time)
    requires SlashFree(p)
    ensures
      var after := Succeeded(items, p, m, now);
      && (m != PROVIDER_WIDE ==> (IsAvailable(after, p, m, later) <==> !Blocked(items, RouteKey(p, PROVIDER_WIDE), later)))
      && (m == PROVIDER_WIDE && other != m ==>
            (IsAvailable(after, p, other, later) <==> !Blocked(items, RouteKey(p, other), later)))
      && after - {RouteKey(p, m)} == items - {RouteKey(p, m)}
  {
    var after := Succeeded(items, p, m, now);
    assert !Blocked(after, RouteKey(p, m), later);
    if RouteKey(p, m) == RouteKey(p, PROVIDER_WIDE) {
      RouteKeyInjective(p, m, p, PROVIDER_WIDE);
    }
    if RouteKey(p, m) == RouteKey(p, other) {
      RouteKeyInjective(p, m, p, other);
    }
    assert after - {RouteKey(p, m)} == items - {RouteKey(p, m)};
  }

  // ---------------------------------------------------------------- cooldown lengths

  /** A failure cools its route for one to four times the base cooldown of its kind, longer
      with each consecutive failure; a later Retry-After (section 10.2.3 of RFC 9110)
      extends it and an earlier one does not shorten it.  No other record changes. */
  lemma FailureCooldown(items: Items, o: Options, p: string, m: string, kind: FailureKind, now: Time, until: Time)
    ensures
      var after := FailedUntil(items, o, p, m, kind, now, until);
      var x := after[RouteKey(p, m)];
      var plain := Failed(items, o, p, m, kind, now)[RouteKey(p, m)].cooldownUntil;
      && now + BaseCooldown(o, kind) <= plain <= now + 4 * BaseCooldown(o, kind)
      && (Record(items, p, m).consecutiveFailures >= 3 ==> plain == now + 4 * BaseCooldown(o, kind))
      && (Record(items, p, m).consecutiveFailures == 0 ==> plain == now + BaseCooldown(o, kind))
      && x.cooldownUntil == (if until > plain then until else plain)
      && x.needsProbe && x.lastFailure == kind
      && after - {RouteKey(p, m)} == items - {RouteKey(p, m)}
  {
    var n := Record(items, p, m).consecutiveFailures + 1;
    var base := BaseCooldown(o, kind);
    CooldownBounds(base, n);
    var after := FailedUntil(items, o, p, m, kind, now, until);
    assert after - {RouteKey(p, m)} == items - {RouteKey(p, m)};
  }

  lemma CooldownBounds(base: nat, n: nat)
    requires n >= 1
    ensures base <= base * Min(n, 4) <= 4 * base
    ensures n >= 4 ==> base * Min(n, 4) == 4 * base
    ensures n == 1 ==> base * Min(n, 4) == base
  {
    if n == 1 {} else if n == 2 {} else if n == 3 {} else {}
  }

  /** A failed probe defers the next one by one to eight minutes, never less than the
      probe before it did. */
  lemma ProbeBackoff(items: Items, p: string, m: string, now: Time, later: Time)
    ensures
      var one := ProbeFailedItems(items, p, m, now);
      var two := ProbeFailedItems(one, p, m, later);
      var k := RouteKey(p, m);
      && now + MINUTE <= one[k].cooldownUntil <= now + 8 * MINUTE
      && two[k].cooldownUntil - later >= one[k].cooldownUntil - now
      && (one[k].cooldownUntil - now < 8 * MINUTE ==> two[k].cooldownUntil - later == one[k].cooldownUntil - now + MINUTE)
      && !IsAvailable(two, p, m, two[k].cooldownUntil)
  {
    var one := ProbeFailedItems(items, p, m, now);
    var two := ProbeFailedItems(one, p, m, later);
    assert Blocked(two, RouteKey(p, m), two[RouteKey(p, m)].cooldownUntil);
  }

  // ---------------------------------------------------------------- in figures

  /** The option that decides about a kind: its own, and the one for network failures for a
      timeout, too. */
  predicate CoolsBy(o: Options, kind: FailureKind, base: nat) {
    && (kind == RateLimited ==> base == o.rateLimit) && (kind == Server ==> base == o.server)
    && (kind == Auth ==> base == o.auth) && (kind == Protocol ==> base == o.protocol)
    && (kind == Network || kind == Timeout || kind == NoFailure ==> base == o.network)
  }

  /** The failures in a row that a table holds against a route. */
  function Streak(items: Items, p: string, m: string): nat {
    if RouteKey(p, m) in items then items[RouteKey(p, m)].consecutiveFailures else 0
  }

  /** The cooldown of a failure, by its kind and by how many in a row it makes: one, two, three
      times the option of the kind, and four times from the fourth on. */
  lemma CooldownOf(items: Items, o: Options, p: string, m: string, kind: FailureKind, now: Time, base: nat)
    requires CoolsBy(o, kind, base)
    ensures
      var x, n := Failed(items, o, p, m, kind, now)[RouteKey(p, m)], Streak(items, p, m);
      && (n == 0 ==> x.cooldownUntil == now + base)
      && (n == 1 ==> x.cooldownUntil == now + base + base)
      && (n == 2 ==> x.cooldownUntil == now + base + base + base)
      && (n >= 3 ==> x.cooldownUntil == now + base + base + base + base)
      && x.consecutiveFailures == n + 1 && x.provider == p && x.model == m
  {
    UpToFourTimes(base, Streak(items, p, m) + 1);
  }

  lemma UpToFourTimes(base: nat, n: nat)
    ensures n == 1 ==> base * Min(n, 4) == base
    ensures n == 2 ==> base * Min(n, 4) == base + base
    ensures n == 3 ==> base * Min(n, 4) == base + base + base
    ensures n >= 4 ==> base * Min(n, 4) == base + base + base + base
  {
    if n == 1 {} else if n == 2 {} else if n == 3 {} else {}
  }

  /** The cooldowns of a table made without options, in nanoseconds: fifteen seconds for network
      failures and timeouts, a minute for rate limits, thirty seconds for server failures, thirty
      minutes for refused credentials, five minutes for broken answers. */
  lemma DefaultCooldowns(p: string, m: string, now: Time)
    ensures
      var o, k := WithDefaults(Options(0, 0, 0, 0, 0)), RouteKey(p, m);
      && Failed(map[], o, p, m, Network, now)[k].cooldownUntil == now + 15_000_000_000
      && Failed(map[], o, p, m, Timeout, now)[k].cooldownUntil == now + 15_000_000_000
      && Failed(map[], o, p, m, RateLimited, now)[k].cooldownUntil == now + 60_000_000_000
      && Failed(map[], o, p, m, Server, now)[k].cooldownUntil == now + 30_000_000_000
      && Failed(map[], o, p, m, Auth, now)[k].cooldownUntil == now + 1_800_000_000_000
      && Failed(map[], o, p, m, Protocol, now)[k].cooldownUntil == now + 300_000_000_000
  {
    var o := WithDefaults(Options(0, 0, 0, 0, 0));
    assert Streak(map[], p, m) == 0;
    CooldownOf(map[], o, p, m, Network, now, o.network);
    CooldownOf(map[], o, p, m, Timeout, now, o.network);
    CooldownOf(map[], o, p, m, RateLimited, now, o.rateLimit);
    CooldownOf(map[], o, p, m, Server, now, o.server);
    CooldownOf(map[], o, p, m, Auth, now, o.auth);
    CooldownOf(map[], o, p, m, Protocol, now, o.protocol);
  }

  /** An option that is given is kept, each on its own. */
  lemma GivenCooldowns(o: Options)
    ensures o.network > 0 ==> WithDefaults(o).network == o.network
    ensures o.rateLimit > 0 ==> WithDefaults(o).rateLimit == o.rateLimit
    ensures o.server > 0 ==> WithDefaults(o).server == o.server
    ensures o.auth > 0 ==> WithDefaults(o).auth == o.auth
    ensures o.protocol > 0 ==> WithDefaults(o).protocol == o.protocol
    ensures o.network == 0 ==> WithDefaults(o).network == 15_000_000_000
    ensures o.rateLimit == 0 ==> WithDefaults(o).rateLimit == 60_000_000_000
    ensures o.server == 0 ==> WithDefaults(o).server == 30_000_000_000
    ensures o.auth == 0 ==> WithDefaults(o).auth == 1_800_000_000_000
    ensures o.protocol == 0 ==> WithDefaults(o).protocol == 300_000_000_000
  {
  }

  /** A failed probe files one to eight minutes, by the streak it makes, and nothing else but
      the streak and the pending probe. */
  lemma ProbeMinutes(items: Items, p: string, m: string, now: Time)
    ensures
      var n := Streak(items, p, m) + 1;
      var x := ProbeFailedItems(items, p, m, now)[RouteKey(p, m)];
      && x.consecutiveFailures == (if n > 8 then 8 else n) && x.needsProbe
      && x.cooldownUntil == now + (if n > 8 then 8 else n) * 60_000_000_000
      && x.provider == p && x.model == m
      && (RouteKey(p, m) in items ==>
            x.lastFailure == items[RouteKey(p, m)].lastFailure && x.lastSuccessAt == items[RouteKey(p, m)].lastSuccessAt)
      && ProbeFailedItems(items, p, m, now) - {RouteKey(p, m)} == items - {RouteKey(p, m)}
  {
  }

  /** A success leaves a record without a trace of earlier failures. */
  lemma SuccessFiles(items: Items, p: string, m: string, now: Time)
    ensures Succeeded(items, p, m, now)[RouteKey(p, m)] == RouteHealth(p, m, 0, NoFailure, 0, Some(now), false)
    ensures Succeeded(items, p, m, now) - {RouteKey(p, m)} == items - {RouteKey(p, m)}
  {
    assert Succeeded(items, p, m, now) - {RouteKey(p, m)} == items - {RouteKey(p, m)};
  }

  /** A route that has failed is due for a probe from the end of its cooldown on, not before, and
      is not available before or after without one. */
  lemma DueFrom(items: Items, o: Options, p: string, m: string, kind: FailureKind, now: Time, until: Time, at: Time)
    ensures
      var after := FailedUntil(items, o, p, m, kind, now, until);
      var x := after[RouteKey(p, m)];
      && (IsDue(x, at) <==> at >= x.cooldownUntil) && (IsCooling(x, at) <==> at < x.cooldownUntil)
      && !IsAvailable(after, p, m, at) && !IsHealthy(x, at)
      && x.lastSuccessAt == (if RouteKey(p, m) in items then items[RouteKey(p, m)].lastSuccessAt else None)
  {
    assert Blocked(FailedUntil(items, o, p, m, kind, now, until), RouteKey(p, m), at);
  }

  /** The second section of a failure with a deadline: it files a deadline that lies ahead and
      behind the cooldown there is, and nothing else, on a record without labels if there is none. */
  lemma DeadlineFiles(items: Items, p: string, m: string, now: Time, until: Time)
    ensures
      var after, k := Extended(items, p, m, now, until), p + "/" + m;
      && (until <= now ==> after == items)
      && (until > now && k !in items ==> after == items[k := RouteHealth("", "", 0, NoFailure, until, None, false)])
      && (until > now && k in items && until <= items[k].cooldownUntil ==> after == items)
      && (until > now && k in items && until > items[k].cooldownUntil ==>
            after == items[k := items[k].(cooldownUntil := until)])
  {
  }
}
