/** Low-quota alerts (`internal/api/quota_runtime.go`): one alert state per provider, an
    alert log, and notifications that are spaced out.  A reading carries the fact, the instant
    at which the interval is checked, the instant at which a notification has been sent, and
    whether sending succeeded. */
module QuotaAlerts {
  import opened Keys
  import opened Quota

  datatype Reading = Reading(item: Snapshot, asked: Time, sent: Time, delivered: bool)

  datatype AlertState = AlertState(active: bool, lastNotified: Time, alertId: string)

  datatype Kind = Low | Recovered
  datatype Alert = Alert(id: string, provider: string, kind: Kind)
  datatype Notice = Notice(provider: string, kind: Kind, asked: Time, sent: Time)

  datatype Limits = Limits(percent: real, absolute: real, notifier: bool, interval: nat)

  /** The alert states, the alert log, and the notifications that were delivered. */
  datatype Board = Board(states: map<string, AlertState>, log: seq<Alert>, notices: seq<Notice>)

  const QUIET: AlertState := AlertState(false, ZERO_TIME, "")

  function StateOf(states: map<string, AlertState>, p: string): AlertState {
    if p in states then states[p] else QUIET
  }

  // ---------------------------------------------------------------- decisions

  predicate IsLow(item: Snapshot, lim: Limits) {
    if item.state == Exhausted then true
    else if item.state != Available || item.remaining.None? then false
    else if lim.absolute > 0.0 && item.remaining.value <= lim.absolute then true
    else lim.percent > 0.0 && item.limit.Some? && item.limit.value > 0.0
         && item.remaining.value / item.limit.value * 100.0 <= lim.percent
  }

  predicate ShouldNotify(s: AlertState, lim: Limits, now: Time) {
    lim.notifier && (s.lastNotified == ZERO_TIME || now >= s.lastNotified + lim.interval)
  }

  /** One reading against the state of its provider. */
  function Judge(s: AlertState, r: Reading, lim: Limits): (AlertState, seq<Alert>, seq<Notice>) {
    var p := r.item.provider;
    if IsLow(r.item, lim) then
      var raised := if s.active then s else s.(active := true, alertId := "quota-" + p + "-low");
      var sends := ShouldNotify(raised, lim, r.asked) && r.delivered;
      (if sends then raised.(lastNotified := r.sent) else raised,
       if s.active then [] else [Alert(raised.alertId, p, Low)],
       if sends then [Notice(p, Low, r.asked, r.sent)] else [])
    else if s.active && (r.item.state == Available || r.item.state == Exhausted) then
      var sends := lim.notifier && r.delivered;
      (s.(active := false, lastNotified := if sends then r.sent else s.lastNotified),
       [Alert(s.alertId + "-recovered", p, Recovered)],
       if sends then [Notice(p, Recovered, r.asked, r.sent)] else [])
    else (s, [], [])
  }

  function Evaluate(b: Board, r: Reading, lim: Limits): Board {
    var p := r.item.provider;
    var (s, alerts, notices) := Judge(StateOf(b.states, p), r, lim);
    Board(b.states[p := s], b.log + alerts, b.notices + notices)
  }

  function EvaluateAll(b: Board, rs: seq<Reading>, lim: Limits): Board
    decreases |rs|
  {
    if rs == [] then b else EvaluateAll(Evaluate(b, rs[0], lim), rs[1..], lim)
  }

  // ---------------------------------------------------------------- the runtime

  class Runtime {
    var states: map<string, AlertState>
    var log: seq<Alert>
    /** Notifications delivered so far. */
    ghost var notices: seq<Notice>
    const lim: Limits

    constructor (lim: Limits)
      ensures this.lim == lim && View() == Board(map[], [], [])
    {
      this.lim, states, log := lim, map[], [];
      notices := [];
    }

    ghost function View(): Board
      reads this
    {
      Board(states, log, notices)
    }

    /** One round over the facts, in the order the index gives them. */
    method EvaluateAlerts(rs: seq<Reading>)
      modifies this
      ensures View() == EvaluateAll(old(View()), rs, lim)
    {
      for i := 0 to |rs|
        invariant EvaluateAll(old(View()), rs, lim) == EvaluateAll(View(), rs[i..], lim)
      {
        assert rs[i..][1..] == rs[i + 1..];
        EvaluateOne(rs[i]);
      }
    }

    method EvaluateOne(r: Reading)
      modifies this
      ensures View() == Evaluate(old(View()), r, lim)
    {
      var p := r.item.provider;
      var state := if p in states then states[p] else QUIET;
      if IsLow(r.item, lim) {
        if !state.active {
          state := state.(active := true, alertId := "quota-" + p + "-low");
          log := log + [Alert(state.alertId, p, Low)];
        }
        if ShouldNotify(state, lim, r.asked) && lim.notifier {
          if r.delivered {
            state := state.(lastNotified := r.sent);
            notices := notices + [Notice(p, Low, r.asked, r.sent)];
          }
        }
      } else if state.active && (r.item.state == Available || r.item.state == Exhausted) {
        state := state.(active := false);
        log := log + [Alert(state.alertId + "-recovered", p, Recovered)];
        if lim.notifier {
          if r.delivered {
            state := state.(lastNotified := r.sent);
            notices := notices + [Notice(p, Recovered, r.asked, r.sent)];
          }
        }
      }
      states := states[p := state];
    }
  }

  // ---------------------------------------------------------------- the alert log alternates

  function KindsOf(log: seq<Alert>, p: string): seq<Kind> {
    if log == [] then []
    else
      var a := log[|log| - 1];
      KindsOf(log[..|log| - 1], p) + (if a.provider == p then [a.kind] else [])
  }

  predicate Alternates(ks: seq<Kind>) {
    forall i :: 0 <= i < |ks| ==> ks[i] == if i % 2 == 0 then Low else Recovered
  }

  predicate EndsLow(ks: seq<Kind>) { ks != [] && ks[|ks| - 1] == Low }

  ghost predicate Alternating(b: Board) {
    forall p :: Alternates(KindsOf(b.log, p)) && (StateOf(b.states, p).active <==> |KindsOf(b.log, p)| % 2 == 1)
  }

  lemma KindsOfOne(log: seq<Alert>, a: Alert, p: string)
    ensures KindsOf(log + [a], p) == KindsOf(log, p) + (if a.provider == p then [a.kind] else [])
  {
    assert (log + [a])[..|log|] == log;
  }

  /** What a reading adds to the log of each provider. */
  lemma LogAfter(b: Board, r: Reading, lim: Limits, p: string)
    ensures
      var s := StateOf(b.states, p);
      KindsOf(Evaluate(b, r, lim).log, p) == KindsOf(b.log, p) +
        (if r.item.provider != p then []
         else if !s.active && IsLow(r.item, lim) then [Low]
         else if s.active && r.item.state == Available && !IsLow(r.item, lim) then [Recovered]
         else [])
  {
    var (_, alerts, _) := Judge(StateOf(b.states, r.item.provider), r, lim);
    if alerts == [] {
      assert b.log + alerts == b.log;
    } else {
      assert alerts == [alerts[0]];
      KindsOfOne(b.log, alerts[0], p);
    }
  }

  lemma AlternationGrows(ks: seq<Kind>, k: Kind)
    requires Alternates(ks) && (k == Low <==> |ks| % 2 == 0)
    ensures Alternates(ks + [k])
  {
  }

  lemma StepAlternates(b: Board, r: Reading, lim: Limits)
    requires Alternating(b)
    ensures Alternating(Evaluate(b, r, lim))
  {
    var c := Evaluate(b, r, lim);
    forall p
      ensures Alternates(KindsOf(c.log, p)) && (StateOf(c.states, p).active <==> |KindsOf(c.log, p)| % 2 == 1)
    {
      var ks := KindsOf(b.log, p);
      assert Alternates(ks) && (StateOf(b.states, p).active <==> |ks| % 2 == 1);
      LogAfter(b, r, lim, p);
      FlipsIff(b, r, lim, p);
      AlternationGrows(ks, if |ks| % 2 == 0 then Low else Recovered);
    }
  }

  lemma {:induction false} RunAlternates(b: Board, rs: seq<Reading>, lim: Limits)
    requires Alternating(b)
    ensures Alternating(EvaluateAll(b, rs, lim))
    decreases |rs|
  {
    if rs != [] {
      StepAlternates(b, rs[0], lim);
      RunAlternates(Evaluate(b, rs[0], lim), rs[1..], lim);
    }
  }

  /** Over any run, with any number of facts per provider, each provider's log alternates
      between low and recovered, starting with low, and ends with low exactly while the
      provider is in alert. */
  lemma AlertsAlternate(rs: seq<Reading>, lim: Limits, p: string)
    ensures
      var b := EvaluateAll(Board(map[], [], []), rs, lim);
      && Alternates(KindsOf(b.log, p))
      && (StateOf(b.states, p).active <==> EndsLow(KindsOf(b.log, p)))
  {
    RunAlternates(Board(map[], [], []), rs, lim);
    AlternatingEnds(EvaluateAll(Board(map[], [], []), rs, lim), p);
  }

  lemma LastByParity(ks: seq<Kind>)
    requires Alternates(ks)
    ensures |ks| % 2 == 1 <==> EndsLow(ks)
  {
  }

  lemma AlternatingEnds(b: Board, p: string)
    requires Alternating(b)
    ensures Alternates(KindsOf(b.log, p)) && (StateOf(b.states, p).active <==> EndsLow(KindsOf(b.log, p)))
  {
    LastByParity(KindsOf(b.log, p));
  }

  /** A reading turns the alert of a provider if and only if it is a reading of that provider
      that is low outside an alert, or available and not low inside one; so an unknown or
      unsupported reading never does. */
  lemma FlipsIff(b: Board, r: Reading, lim: Limits, p: string)
    ensures
      var before, after := StateOf(b.states, p).active, StateOf(Evaluate(b, r, lim).states, p).active;
      && (after != before <==>
          r.item.provider == p && (if before then r.item.state == Available && !IsLow(r.item, lim) else IsLow(r.item, lim)))
      && (r.item.state == Unknown || r.item.state == NotSupported ==> after == before)
  {
  }

  // ---------------------------------------------------------------- notifications are spaced

  function NoticesOf(ns: seq<Notice>, p: string): seq<Notice> {
    if ns == [] then []
    else
      var n := ns[|ns| - 1];
      NoticesOf(ns[..|ns| - 1], p) + (if n.provider == p then [n] else [])
  }

  predicate Spaced(ns: seq<Notice>, interval: nat) {
    forall i :: 0 < i < |ns| && ns[i].kind == Low ==> ns[i].asked >= ns[i - 1].sent + interval
  }

  predicate Remembered(s: AlertState, ns: seq<Notice>) {
    (forall i :: 0 <= i < |ns| ==> ns[i].sent > ZERO_TIME)
    && s.lastNotified == if ns == [] then ZERO_TIME else ns[|ns| - 1].sent
  }

  /** What a provider has been sent is spaced and remembered. */
  predicate NoticesFine(b: Board, p: string, interval: nat) {
    Spaced(NoticesOf(b.notices, p), interval) && Remembered(StateOf(b.states, p), NoticesOf(b.notices, p))
  }

  ghost predicate NoticesOk(b: Board, interval: nat) {
    forall p :: NoticesFine(b, p, interval)
  }

  lemma NoticesOfOne(ns: seq<Notice>, n: Notice, p: string)
    ensures NoticesOf(ns + [n], p) == NoticesOf(ns, p) + (if n.provider == p then [n] else [])
  {
    assert (ns + [n])[..|ns|] == ns;
  }

  lemma NoticeGrows(s: AlertState, ns: seq<Notice>, n: Notice, interval: nat, t: AlertState)
    requires Spaced(ns, interval) && Remembered(s, ns) && n.sent > ZERO_TIME && t.lastNotified == n.sent
    requires n.kind == Low ==> s.lastNotified == ZERO_TIME || n.asked >= s.lastNotified + interval
    ensures Spaced(ns + [n], interval) && Remembered(t, ns + [n])
  {
  }

  /** A reading sends at most one notice, remembers it, and sends a low one only when due. */
  predicate SendsInTime(s: AlertState, t: AlertState, added: seq<Notice>, r: Reading, interval: nat) {
    && |added| <= 1 && (added == [] ==> t.lastNotified == s.lastNotified)
    && (added != [] ==>
          (added[0].provider == r.item.provider && added[0].sent == r.sent == t.lastNotified
           && (added[0].kind == Low ==> s.lastNotified == ZERO_TIME || added[0].asked >= s.lastNotified + interval)))
  }

  lemma JudgeSends(s: AlertState, r: Reading, lim: Limits)
    ensures SendsInTime(s, Judge(s, r, lim).0, Judge(s, r, lim).2, r, lim.interval)
  {
  }

  /** The notices of one reading continue those of its provider. */
  lemma SentInTimeSpaces(s: AlertState, t: AlertState, added: seq<Notice>, r: Reading, interval: nat, ns: seq<Notice>)
    requires SendsInTime(s, t, added, r, interval) && r.sent > ZERO_TIME
    requires Spaced(ns, interval) && Remembered(s, ns)
    ensures Spaced(ns + added, interval) && Remembered(t, ns + added)
  {
    if added == [] {
      assert ns + added == ns;
    } else {
      assert added == [added[0]];
      NoticeGrows(s, ns, added[0], interval, t);
    }
  }

  lemma NoticesOfAll(ns: seq<Notice>, added: seq<Notice>, p: string, q: string)
    requires |added| <= 1 && (added != [] ==> added[0].provider == q)
    ensures NoticesOf(ns + added, p) == if p == q then NoticesOf(ns, p) + added else NoticesOf(ns, p)
  {
    if added == [] {
      assert ns + added == ns;
    } else {
      assert added == [added[0]];
      NoticesOfOne(ns, added[0], p);
    }
  }

  lemma EvaluateParts(b: Board, r: Reading, lim: Limits, p: string)
    ensures
      var q := r.item.provider;
      var (t, _, added) := Judge(StateOf(b.states, q), r, lim);
      var c := Evaluate(b, r, lim);
      c.notices == b.notices + added && StateOf(c.states, p) == if p == q then t else StateOf(b.states, p)
  {
  }

  lemma NoticesAfter(b: Board, r: Reading, lim: Limits, p: string)
    requires NoticesFine(b, p, lim.interval) && r.sent > ZERO_TIME
    ensures NoticesFine(Evaluate(b, r, lim), p, lim.interval)
  {
    var q := r.item.provider;
    var s := StateOf(b.states, q);
    var (t, _, added) := Judge(s, r, lim);
    JudgeSends(s, r, lim);
    EvaluateParts(b, r, lim, p);
    NoticesOfAll(b.notices, added, p, q);
    if p == q {
      SentInTimeSpaces(s, t, added, r, lim.interval, NoticesOf(b.notices, p));
    }
  }

  /** Every delivered low notification of a provider was due: at least the retry interval had
      passed since the provider's notification before it, of either kind. */
  lemma {:induction false} LowNoticesAreSpaced(b: Board, rs: seq<Reading>, lim: Limits)
    requires NoticesOk(b, lim.interval) && forall r :: r in rs ==> r.sent > ZERO_TIME
    ensures NoticesOk(EvaluateAll(b, rs, lim), lim.interval)
    decreases |rs|
  {
    if rs != [] {
      assert rs[0].sent > ZERO_TIME;
      forall p ensures NoticesFine(Evaluate(b, rs[0], lim), p, lim.interval) {
        NoticesAfter(b, rs[0], lim, p);
      }
      LowNoticesAreSpaced(Evaluate(b, rs[0], lim), rs[1..], lim);
    }
  }

  // ---------------------------------------------------------------- in plain values

  /** What is low: an exhausted quota; and an available one whose known rest is at most the
      absolute limit, or at most the given share of its known size.  A limit of zero is off. */
  predicate Scarce(item: Snapshot, lim: Limits) {
    item.state == Exhausted
    || (item.state == Available && item.remaining.Some?
        && ((lim.absolute > 0.0 && item.remaining.value <= lim.absolute)
            || (lim.percent > 0.0 && item.limit.Some? && item.limit.value > 0.0
                && 100.0 * item.remaining.value <= lim.percent * item.limit.value)))
  }

  lemma ShareAtMost(a: real, b: real, percent: real)
    requires b > 0.0
    ensures a / b * 100.0 <= percent <==> 100.0 * a <= percent * b
  {
    var q := a / b;
    assert q * b == a;
    if q * 100.0 <= percent {
      assert (percent - q * 100.0) * b >= 0.0;
    } else {
      assert (q * 100.0 - percent) * b > 0.0;
    }
  }

  lemma LowIff(item: Snapshot, lim: Limits)
    ensures IsLow(item, lim) <==> Scarce(item, lim)
  {
    if item.remaining.Some? && item.limit.Some? && item.limit.value > 0.0 {
      ShareAtMost(item.remaining.value, item.limit.value, lim.percent);
    }
  }

  /** What one reading writes: an alert is raised when a quiet provider is low and closed when an
      alerted one is available and not low; a low notice goes out, alert or no new one, when the
      last notice was never or at least the interval ago, and a notice of recovery with the
      recovery; one that is not delivered is not remembered. */
  lemma ReadingWrites(b: Board, r: Reading, lim: Limits)
    ensures
      var c, p := Evaluate(b, r, lim), r.item.provider;
      var s, t := if p in b.states then b.states[p] else AlertState(false, 0, ""), c.states[p];
      var low := Scarce(r.item, lim);
      var back := s.active && !low && r.item.state == Available;
      var due := s.lastNotified == 0 || r.asked >= s.lastNotified + lim.interval;
      var told := lim.notifier && r.delivered && ((low && due) || back);
      && c.states == b.states[p := t]
      && t.active == (low || (s.active && !back))
      && t.lastNotified == (if told then r.sent else s.lastNotified)
      && t.alertId == (if low && !s.active then "quota-" + p + "-low" else s.alertId)
      && c.log == b.log + (if low && !s.active then [Alert("quota-" + p + "-low", p, Low)]
                           else if back then [Alert(s.alertId + "-recovered", p, Recovered)] else [])
      && c.notices == b.notices + (if told then [Notice(p, if low then Low else Recovered, r.asked, r.sent)] else [])
  {
    LowIff(r.item, lim);
  }
}
