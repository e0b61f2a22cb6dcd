/** Rule requests beside everything else that happens to the catalog
    (`internal/api/governance_rules.go`, `internal/catalog/manager.go`).

    An application or an undo looks at the catalog once for each of its changes, then changes
    the rule table in one section, and then the allow gates one by one; a gate that the catalog
    refuses by then is skipped without a word.  The sections of any number of requests mix with
    each other and with those of the manager: syncs, reconciliations, admissions, probes. */
module GovernanceRaces {
  import opened Keys
  import opened CatalogModel
  import opened Catalog
  import opened GovernanceRules
  import CatalogRuns
  import CatalogSync

  /** `vetted` holds the changes of each request that have passed validation so far, `pending`
      those that a request with filed rules has still to make at the gates. */
  datatype Race = Race(rules: map<string, bool>, cat: Cat, vetted: map<nat, seq<Change>>, pending: map<nat, seq<Change>>)

  datatype Event =
    | Vet(r: nat, c: Change)
    | Commit(r: nat)
    | Gate(r: nat)
    | Manage(op: CatalogRuns.Op)

  function VettedBy(s: Race, r: nat): seq<Change> { if r in s.vetted then s.vetted[r] else [] }

  /** One turn of `validate`, on the catalog of that moment. */
  predicate Passes(s: Race, r: nat, c: Change) {
    |VettedBy(s, r)| < 100 && c.key !in KeysOf(VettedBy(s, r)) && ChangeOk(s.cat.models, c)
  }

  predicate CanCommit(s: Race, r: nat) { r in s.vetted && r !in s.pending }

  /** A refused validation ends its request. */
  function Next(s: Race, e: Event): Race {
    match e
    case Vet(r, c) =>
      if r in s.pending then s
      else if Passes(s, r, c) then s.(vetted := s.vetted[r := VettedBy(s, r) + [c]])
      else s.(vetted := s.vetted - {r})
    case Commit(r) =>
      if CanCommit(s, r) then
        s.(rules := SetRules(s.rules, s.vetted[r]), vetted := s.vetted - {r}, pending := s.pending[r := s.vetted[r]])
      else s
    case Gate(r) =>
      if r !in s.pending then s
      else if s.pending[r] == [] then s.(pending := s.pending - {r})
      else s.(cat := SetAllowByKey(s.cat, s.pending[r][0]), pending := s.pending[r := s.pending[r][1..]])
    case Manage(op) => s.(cat := CatalogRuns.Apply(s.cat, op))
  }

  function Run(s: Race, es: seq<Event>): Race
    decreases |es|
  {
    if es == [] then s else Run(Next(s, es[0]), es[1..])
  }

  lemma {:induction false} RunConcat(s: Race, a: seq<Event>, b: seq<Event>)
    ensures Run(s, a + b) == Run(Run(s, a), b)
    decreases |a|
  {
    if a == [] {
      assert a + b == b;
    } else {
      assert (a + b)[1..] == a[1..] + b;
      RunConcat(Next(s, a[0]), a[1..], b);
    }
  }

  /** No list decides a key twice or has more than a hundred changes, and a request is in one of
      its stages. */
  ghost predicate WellFormed(s: Race) {
    && (forall r :: r in s.vetted ==> r !in s.pending && DistinctKeys(s.vetted[r]) && 1 <= |s.vetted[r]| <= 100)
    && forall r :: r in s.pending ==> DistinctKeys(s.pending[r]) && |s.pending[r]| <= 100
  }

  lemma VettedGrows(cs: seq<Change>, c: Change)
    requires DistinctKeys(cs) && c.key !in KeysOf(cs)
    ensures DistinctKeys(cs + [c])
  {
    forall i | 0 <= i < |cs| ensures cs[i].key != c.key {
      assert cs[i] in cs;
    }
  }

  lemma StepKeepsWellFormed(s: Race, e: Event)
    requires WellFormed(s)
    ensures WellFormed(Next(s, e))
  {
    match e
    case Vet(r, c) =>
      if r !in s.pending && Passes(s, r, c) {
        VettedGrows(VettedBy(s, r), c);
      }
    case _ =>
  }

  // ---------------------------------------------------------------- agreement in the making

  predicate Decides(cs: seq<Change>, k: string) { exists c :: c in cs && c.key == k }

  predicate DecidesAs(cs: seq<Change>, k: string, on: bool) { forall c :: c in cs && c.key == k ==> c.on == on }

  ghost predicate Waits(s: Race, k: string) { exists r :: r in s.pending && Decides(s.pending[r], k) }

  /** All pending changes of a key say what its rule says; without any, its gate does. */
  ghost predicate Unanimous(s: Race, k: string) {
    && (forall r :: r in s.pending ==> DecidesAs(s.pending[r], k, Lookup(s.rules, k)))
    && (!Waits(s, k) ==> Lookup(s.cat.allow, k) == Lookup(s.rules, k))
  }

  ghost predicate Agreed(s: Race) { forall k :: Unanimous(s, k) }

  /** A list that says otherwise than a change another request has still to make. */
  ghost predicate Contradicts(s: Race, cs: seq<Change>) {
    exists q, c :: q in s.pending && c in cs && !DecidesAs(s.pending[q], c.key, c.on)
  }

  /** The next gate of request `r` is refused where it stands otherwise, and no other request
      is going to make it. */
  ghost predicate RefusedAgainst(s: Race, r: nat) {
    r in s.pending && s.pending[r] != []
    && var c := s.pending[r][0];
       && !Takes(s.cat.models, c.key, c.on) && Lookup(s.cat.allow, c.key) != c.on
       && forall q :: q in s.pending && q != r ==> !Decides(s.pending[q], c.key)
  }

  /** A revocation under a rule that is on, or an approval from elsewhere that says otherwise
      than the rule, of a key no request is about to decide. */
  ghost predicate MovesAgainst(s: Race, op: CatalogRuns.Op) {
    match op
    case OnAdmit(p, id, on) => !on && Lookup(s.rules, RouteKey(p, id)) && !Waits(s, RouteKey(p, id))
    case OnAllow(p, id, on) =>
      SetAllow(s.cat, p, id, on).1 && Lookup(s.rules, RouteKey(p, id)) != on && !Waits(s, RouteKey(p, id))
    case _ => false
  }

  ghost predicate Breaks(s: Race, e: Event) {
    match e
    case Vet(_, _) => false
    case Commit(r) => CanCommit(s, r) && Contradicts(s, s.vetted[r])
    case Gate(r) => RefusedAgainst(s, r)
    case Manage(op) => MovesAgainst(s, op)
  }

  // ---------------------------------------------------------------- one step

  lemma HeadAndTail(cs: seq<Change>, k: string)
    requires cs != [] && DistinctKeys(cs)
    ensures Decides(cs, k) <==> cs[0].key == k || Decides(cs[1..], k)
    ensures cs[0].key == k ==> !Decides(cs[1..], k)
    ensures forall on :: DecidesAs(cs, k, on) <==> (cs[0].key == k ==> cs[0].on == on) && DecidesAs(cs[1..], k, on)
    ensures DistinctKeys(cs[1..])
  {
    assert cs == [cs[0]] + cs[1..];
  }

  /** One gate: what it does to the gate of a key, and what it leaves to do. */
  lemma OneGate(s: Race, r: nat, k: string)
    requires r in s.pending && s.pending[r] != []
    ensures
      var t, c := Next(s, Gate(r)), s.pending[r][0];
      && SameFleet(s.cat.models, t.cat.models) && t.rules == s.rules && t.vetted == s.vetted
      && t.pending == s.pending[r := s.pending[r][1..]]
      && Lookup(t.cat.allow, k) ==
           if c.key == k && Takes(s.cat.models, k, c.on) then c.on else Lookup(s.cat.allow, k)
  {
    var c := s.pending[r][0];
    if SplitKey(c.key).Some? {
      Replayed(s.cat, c.key, c.on);
    }
  }

  lemma {:induction false} DecidedHere(cs: seq<Change>, k: string, otherwise: bool)
    requires DistinctKeys(cs)
    ensures !Decides(cs, k) ==> Decided(cs, k, otherwise) == otherwise
    ensures DecidesAs(cs, k, Decided(cs, k, otherwise))
    decreases |cs|
  {
    if cs != [] {
      HeadAndTail(cs, k);
      DecidedHere(cs[1..], k, if cs[0].key == k then cs[0].on else otherwise);
    }
  }

  lemma RulesOfList(rules: map<string, bool>, cs: seq<Change>, k: string)
    requires DistinctKeys(cs)
    ensures !Decides(cs, k) ==> Lookup(SetRules(rules, cs), k) == Lookup(rules, k)
    ensures DecidesAs(cs, k, Lookup(SetRules(rules, cs), k))
  {
    RulesAfter(rules, cs, k);
    DecidedHere(cs, k, Lookup(rules, k));
  }

  /** A commit keeps a key on its way to agreement exactly when the new list contradicts no
      pending change of the key. */
  lemma CommitOnKey(s: Race, r: nat, k: string)
    requires WellFormed(s) && CanCommit(s, r) && Unanimous(s, k)
    ensures Unanimous(Next(s, Commit(r)), k) <==>
      forall q, c :: q in s.pending && c in s.vetted[r] && c.key == k ==> DecidesAs(s.pending[q], k, c.on)
  {
    var cs, t := s.vetted[r], Next(s, Commit(r));
    RulesOfList(s.rules, cs, k);
    assert t.pending[r] == cs;
    assert forall q :: q in s.pending ==> t.pending[q] == s.pending[q] && DecidesAs(s.pending[q], k, Lookup(s.rules, k));
    if Decides(cs, k) {
      var c :| c in cs && c.key == k;
      assert Lookup(t.rules, k) == c.on && Waits(t, k);
    } else if Waits(s, k) {
      var q :| q in s.pending && Decides(s.pending[q], k);
      assert Decides(t.pending[q], k);
    }
  }

  lemma CommitKeepsIff(s: Race, r: nat)
    requires WellFormed(s) && CanCommit(s, r) && Agreed(s)
    ensures Agreed(Next(s, Commit(r))) <==> !Contradicts(s, s.vetted[r])
  {
    var t := Next(s, Commit(r));
    forall k
      ensures Unanimous(t, k) <==>
        forall q, c :: q in s.pending && c in s.vetted[r] && c.key == k ==> DecidesAs(s.pending[q], k, c.on)
    {
      assert Unanimous(s, k);
      CommitOnKey(s, r, k);
    }
    if Contradicts(s, s.vetted[r]) {
      var q, c :| q in s.pending && c in s.vetted[r] && !DecidesAs(s.pending[q], c.key, c.on);
      assert !Unanimous(t, c.key);
    }
  }

  lemma OthersWait(s: Race, r: nat, k: string)
    requires WellFormed(s) && r in s.pending && s.pending[r] != []
    ensures
      var t, c := Next(s, Gate(r)), s.pending[r][0];
      && (c.key == k ==> (Waits(t, k) <==> exists q :: q in s.pending && q != r && Decides(s.pending[q], k)))
      && (c.key != k ==> (Waits(t, k) <==> Waits(s, k)))
  {
    var t := Next(s, Gate(r));
    HeadAndTail(s.pending[r], k);
    assert t.pending[r] == s.pending[r][1..];
    assert forall q :: q in s.pending && q != r ==> t.pending[q] == s.pending[q];
    if Waits(t, k) {
      var q :| q in t.pending && Decides(t.pending[q], k);
      assert q in s.pending && Decides(s.pending[q], k);
    }
    if Waits(s, k) && s.pending[r][0].key != k {
      var q :| q in s.pending && Decides(s.pending[q], k);
      assert Decides(t.pending[q], k);
    }
    if q :| q in s.pending && q != r && Decides(s.pending[q], k) {
      assert Decides(t.pending[q], k);
    }
  }

  lemma GateOnKey(s: Race, r: nat, k: string)
    requires WellFormed(s) && Unanimous(s, k) && r in s.pending && s.pending[r] != []
    ensures Unanimous(Next(s, Gate(r)), k) <==> !(s.pending[r][0].key == k && RefusedAgainst(s, r))
  {
    var t, c := Next(s, Gate(r)), s.pending[r][0];
    OneGate(s, r, k);
    OthersWait(s, r, k);
    HeadAndTail(s.pending[r], k);
    forall q | q in t.pending ensures DecidesAs(t.pending[q], k, Lookup(s.rules, k)) {
      assert DecidesAs(s.pending[q], k, Lookup(s.rules, k));
    }
    if c.key == k {
      assert c in s.pending[r];
      assert c.on == Lookup(s.rules, k);
    }
  }

  lemma EndOnKey(s: Race, r: nat, k: string)
    requires Unanimous(s, k) && r in s.pending && s.pending[r] == []
    ensures Unanimous(Next(s, Gate(r)), k)
  {
    var t := Next(s, Gate(r));
    if Waits(s, k) {
      var q :| q in s.pending && Decides(s.pending[q], k);
      assert Decides(t.pending[q], k);
    }
  }

  lemma GateKeepsIff(s: Race, r: nat)
    requires WellFormed(s) && Agreed(s)
    ensures Agreed(Next(s, Gate(r))) <==> !RefusedAgainst(s, r)
  {
    if r in s.pending {
      var t := Next(s, Gate(r));
      if s.pending[r] == [] {
        forall k ensures Unanimous(t, k) {
          EndOnKey(s, r, k);
        }
      } else {
        forall k ensures Unanimous(t, k) <==> !(s.pending[r][0].key == k && RefusedAgainst(s, r)) {
          assert Unanimous(s, k);
          GateOnKey(s, r, k);
        }
        assert RefusedAgainst(s, r) ==> !Unanimous(t, s.pending[r][0].key);
      }
    }
  }

  /** Only an admission request or an approval moves a gate. */
  lemma ManagedGate(cat: Cat, op: CatalogRuns.Op, k: string)
    ensures Lookup(CatalogRuns.Apply(cat, op).allow, k) ==
      match op
      case OnAdmit(p, id, on) => Lookup(cat.allow, k) && (on || RouteKey(p, id) != k)
      case OnAllow(p, id, on) => if SetAllow(cat, p, id, on).1 && RouteKey(p, id) == k then on else Lookup(cat.allow, k)
      case _ => Lookup(cat.allow, k)
  {
  }

  lemma ManagedKey(s: Race, op: CatalogRuns.Op, k: string)
    requires Unanimous(s, k)
    ensures
      var t := Next(s, Manage(op));
      Unanimous(t, k) <==> Waits(s, k) || Lookup(t.cat.allow, k) == Lookup(s.cat.allow, k)
  {
    assert Waits(Next(s, Manage(op)), k) <==> Waits(s, k);
  }

  lemma ManageKeepsIff(s: Race, op: CatalogRuns.Op)
    requires Agreed(s)
    ensures Agreed(Next(s, Manage(op))) <==> !MovesAgainst(s, op)
  {
    var t := Next(s, Manage(op));
    forall k ensures Unanimous(t, k) <==> Waits(s, k) || Lookup(t.cat.allow, k) == Lookup(s.cat.allow, k) {
      assert Unanimous(s, k);
      ManagedKey(s, op, k);
    }
    forall k ensures !Waits(s, k) ==> Lookup(s.cat.allow, k) == Lookup(s.rules, k) {
      assert Unanimous(s, k);
    }
    match op
    case OnAdmit(p, id, on) => MovedKey(s, op, RouteKey(p, id));
    case OnAllow(p, id, on) => MovedKey(s, op, RouteKey(p, id));
    case _ =>
  }

  /** Of the gates only the one of the key addressed can have moved. */
  lemma MovedKey(s: Race, op: CatalogRuns.Op, key: string)
    requires op.OnAdmit? || op.OnAllow?
    requires key == RouteKey(op.p, op.id)
    ensures
      var t := Next(s, Manage(op));
      && (forall k :: k != key ==> Lookup(t.cat.allow, k) == Lookup(s.cat.allow, k))
      && (!Waits(s, key) && Lookup(s.cat.allow, key) == Lookup(s.rules, key) ==>
            (MovesAgainst(s, op) <==> Lookup(t.cat.allow, key) != Lookup(s.cat.allow, key)))
      && (Waits(s, key) ==> !MovesAgainst(s, op))
  {
    ManagedGate(s.cat, op, key);
    forall k | k != key ensures Lookup(Next(s, Manage(op)).cat.allow, k) == Lookup(s.cat.allow, k) {
      ManagedGate(s.cat, op, k);
    }
  }

  /** A step keeps every key on its way to agreement if and only if it is not a commit that
      contradicts a pending change, not a refused gate that stands otherwise, and not a
      revocation or approval from elsewhere against the rule. */
  lemma StepKeepsIff(s: Race, e: Event)
    requires WellFormed(s) && Agreed(s)
    ensures WellFormed(Next(s, e))
    ensures Agreed(Next(s, e)) <==> !Breaks(s, e)
  {
    StepKeepsWellFormed(s, e);
    match e
    case Vet(r, c) =>
      var t := Next(s, e);
      forall k ensures Unanimous(t, k) {
        assert Unanimous(s, k) && (Waits(t, k) <==> Waits(s, k));
      }
    case Commit(r) =>
      if CanCommit(s, r) {
        CommitKeepsIff(s, r);
      }
    case Gate(r) => GateKeepsIff(s, r);
    case Manage(op) => ManageKeepsIff(s, op);
  }

  // ---------------------------------------------------------------- whole runs

  ghost predicate Careful(s: Race, es: seq<Event>)
    decreases |es|
  {
    es == [] || (!Breaks(s, es[0]) && Careful(Next(s, es[0]), es[1..]))
  }

  lemma {:induction false} RunStaysAgreed(s: Race, es: seq<Event>)
    requires WellFormed(s) && Agreed(s) && Careful(s, es)
    ensures WellFormed(Run(s, es)) && Agreed(Run(s, es))
    decreases |es|
  {
    if es != [] {
      StepKeepsIff(s, es[0]);
      RunStaysAgreed(Next(s, es[0]), es[1..]);
    }
  }

  /** In every interleaving of requests with syncs, reconciliations, admissions and probes in
      which no step is one of the three that break it, rules and gates agree on every key
      whenever no request is under way. */
  lemma CarefulRequestsAgree(s: Race, es: seq<Event>, k: string)
    requires WellFormed(s) && s.pending == map[] && (forall j :: Lookup(s.rules, j) == Lookup(s.cat.allow, j))
    requires Careful(s, es) && Run(s, es).pending == map[]
    ensures Lookup(Run(s, es).rules, k) == Lookup(Run(s, es).cat.allow, k)
  {
    RunStaysAgreed(s, es);
    assert Unanimous(Run(s, es), k);
  }

  /** A key that is off in its rule, at its gate and in every list under way stays off in both,
      whatever the manager does short of approving it, and whatever other keys are decided. */
  ghost predicate Off(s: Race, k: string) {
    && !Lookup(s.rules, k) && !Lookup(s.cat.allow, k)
    && (forall r :: r in s.pending ==> DecidesAs(s.pending[r], k, false))
    && forall r :: r in s.vetted ==> DecidesAs(s.vetted[r], k, false)
  }

  predicate TurnsOn(e: Event, k: string) {
    match e
    case Vet(_, c) => c == Change(k, true)
    case Manage(op) => op.OnAllow? && op.on && RouteKey(op.p, op.id) == k
    case _ => false
  }

  lemma OffStep(s: Race, e: Event, k: string)
    requires WellFormed(s) && Off(s, k) && !TurnsOn(e, k)
    ensures Off(Next(s, e), k)
  {
    match e
    case Vet(r, c) =>
    case Commit(r) =>
      if CanCommit(s, r) {
        RulesOfList(s.rules, s.vetted[r], k);
        assert forall c :: c in s.vetted[r] && c.key == k ==> !c.on;
        assert Decides(s.vetted[r], k) ==> !Lookup(SetRules(s.rules, s.vetted[r]), k);
      }
    case Gate(r) =>
      if r in s.pending && s.pending[r] != [] {
        OneGate(s, r, k);
        HeadAndTail(s.pending[r], k);
      }
    case Manage(op) => ManagedGate(s.cat, op, k);
  }

  lemma {:induction false} OffStaysOff(s: Race, es: seq<Event>, k: string)
    requires WellFormed(s) && Off(s, k) && forall e :: e in es ==> !TurnsOn(e, k)
    ensures !Lookup(Run(s, es).rules, k) && !Lookup(Run(s, es).cat.allow, k)
    decreases |es|
  {
    if es != [] {
      assert !TurnsOn(es[0], k);
      OffStep(s, es[0], k);
      StepKeepsWellFormed(s, es[0]);
      OffStaysOff(Next(s, es[0]), es[1..], k);
    }
  }

  // ---------------------------------------------------------------- the runs that fail

  /** A revocation closes the gate under a rule that stays on. */
  lemma RevokedUnderRule(s: Race, p: string, id: string)
    requires s.pending == map[] && Lookup(s.rules, RouteKey(p, id))
    ensures
      var t := Run(s, [Manage(CatalogRuns.OnAdmit(p, id, false))]);
      t.pending == map[] && Lookup(t.rules, RouteKey(p, id)) && !Lookup(t.cat.allow, RouteKey(p, id))
  {
    ManagedGate(s.cat, CatalogRuns.OnAdmit(p, id, false), RouteKey(p, id));
    OneStep(s, Manage(CatalogRuns.OnAdmit(p, id, false)));
  }

  lemma OneStep(s: Race, e: Event)
    ensures Run(s, [e]) == Next(s, e)
  {
    assert [e][1..] == [] && Run(Next(s, e), []) == Next(s, e);
  }

  function Withdrawal(r: nat, key: string): seq<Event> { [Vet(r, Change(key, false)), Commit(r)] }

  function Finish(r: nat): seq<Event> { [Gate(r), Gate(r)] }

  lemma TwoSteps(s: Race, a: Event, b: Event)
    ensures Run(s, [a, b]) == Next(Next(s, a), b)
  {
    assert [a, b][1..] == [b];
    OneStep(Next(s, a), b);
  }

  lemma WithdrawalIsFiled(s: Race, r: nat, key: string)
    requires r !in s.vetted && r !in s.pending && ChangeOk(s.cat.models, Change(key, false))
    ensures
      var t := Run(s, Withdrawal(r, key));
      && t.cat == s.cat && t.pending == s.pending[r := [Change(key, false)]] && t.vetted == s.vetted
      && !Lookup(t.rules, key)
  {
    var cs := [Change(key, false)];
    TwoSteps(s, Vet(r, cs[0]), Commit(r));
    assert Next(s, Vet(r, cs[0])).vetted[r] == cs && cs[1..] == [];
    assert SetRules(s.rules, cs) == SetRules(s.rules[key := false], []);
    assert s.vetted[r := cs] - {r} == s.vetted;
  }

  lemma RefusedFinish(s: Race, r: nat, key: string)
    requires r in s.pending && s.pending[r] == [Change(key, false)]
    requires SplitKey(key).Some? && !Takes(s.cat.models, key, false)
    ensures Run(s, Finish(r)) == s.(pending := s.pending - {r})
  {
    TwoSteps(s, Gate(r), Gate(r));
    Replayed(s.cat, key, false);
    assert [Change(key, false)][1..] == [];
    assert s.pending[r := []] - {r} == s.pending - {r};
  }

  /** A list without the model takes its entry away, so that the gate refuses whatever comes. */
  lemma DroppedRefuses(cat: Cat, p: string, raw: seq<RawModel>, now: Time, id: string)
    requires SlashFree(p) && forall x :: x in UsableOf(raw) ==> TrimSpace(x.id) != id
    requires !Sync(cat, p, raw, now).1
    ensures !Takes(Sync(cat, p, raw, now).0.models, RouteKey(p, id), false)
  {
    var keep, next := Others(cat.models, p), CatalogRuns.NextList(cat, p, raw, cat.allow, cat.admitted);
    var after := keep + next;
    assert Sync(cat, p, raw, now).0.models == after;
    SplitRouteKey(p, id);
    CatalogSync.NextListShape(cat, p, raw, cat.allow, cat.admitted);
    CatalogSync.OthersElsewhere(cat.models, p);
    forall j | 0 <= j < |after| ensures !(after[j].provider == p && after[j].id == id) {
      if j < |keep| {
        assert after[j] == keep[j];
      } else {
        assert after[j] == next[j - |keep|];
        assert UsableOf(raw)[j - |keep|] in UsableOf(raw);
      }
    }
  }

  function Resync(cat: Cat, p: string, raw: seq<RawModel>, now: Time): Event {
    Manage(CatalogRuns.OnSync(p, raw, now, cat.allow, cat.admitted))
  }

  /** A request withdraws an approval, a sync takes the entry away before the gate, and the gate
      is refused; the next list brings the model back routable under a rule that is off. */
  lemma DroppedBeforeGate(s: Race, r: nat, p: string, id: string, without: seq<RawModel>, listing: seq<RawModel>,
                          i: nat, now: Time, later: Time)
    requires s.pending == map[] && r !in s.vetted && SlashFree(p) && TrimmedId(id)
    requires ChangeOk(s.cat.models, Change(RouteKey(p, id), false))
    requires Lookup(s.cat.admitted, RouteKey(p, id)) && Lookup(s.cat.allow, RouteKey(p, id))
    requires forall x :: x in UsableOf(without) ==> TrimSpace(x.id) != id
    requires i < |UsableOf(listing)| && UsableOf(listing)[i].id == id
    requires !Sync(s.cat, p, without, now).1 && |UsableOf(without)| <= 2 * |UsableOf(listing)|
    ensures
      var key := RouteKey(p, id);
      var away := Resync(s.cat, p, without, now);
      var back := Resync(s.cat, p, listing, later);
      var t := Run(s, Withdrawal(r, key) + [away] + Finish(r) + [back]);
      && t.pending == map[] && !Lookup(t.rules, key)
      && Lookup(t.cat.allow, key) && CatalogRuns.Routes(t.cat, p, id)
  {
    var first := Withdrawal(r, RouteKey(p, id)) + [Resync(s.cat, p, without, now)] + Finish(r);
    var back := Resync(s.cat, p, listing, later);
    GateMissed(s, r, p, id, without, now);
    BackOnList(s, Run(s, first), p, id, without, listing, i, now, later);
    OneStep(Run(s, first), back);
    RunConcat(s, first, [back]);
  }

  /** The first five sections: the rule is off, the catalog is that of the sync. */
  lemma GateMissed(s: Race, r: nat, p: string, id: string, without: seq<RawModel>, now: Time)
    requires s.pending == map[] && r !in s.vetted && SlashFree(p)
    requires ChangeOk(s.cat.models, Change(RouteKey(p, id), false))
    requires (forall x :: x in UsableOf(without) ==> TrimSpace(x.id) != id) && !Sync(s.cat, p, without, now).1
    ensures
      var key := RouteKey(p, id);
      var t := Run(s, Withdrawal(r, key) + [Resync(s.cat, p, without, now)] + Finish(r));
      t.pending == map[] && !Lookup(t.rules, key) && t.cat == Sync(s.cat, p, without, now).0
  {
    var key, away := RouteKey(p, id), Resync(s.cat, p, without, now);
    var s1 := Run(s, Withdrawal(r, key));
    var s2 := Next(s1, away);
    WithdrawalIsFiled(s, r, key);
    OneStep(s1, away);
    SplitRouteKey(p, id);
    DroppedRefuses(s.cat, p, without, now, id);
    RefusedFinish(s2, r, key);
    RunConcat(s, Withdrawal(r, key), [away]);
    RunConcat(s, Withdrawal(r, key) + [away], Finish(r));
  }

  /** The next list files the model behind the gate that was missed. */
  lemma BackOnList(s: Race, t: Race, p: string, id: string, without: seq<RawModel>, listing: seq<RawModel>,
                   i: nat, now: Time, later: Time)
    requires TrimmedId(id) && t.cat == Sync(s.cat, p, without, now).0 && !Sync(s.cat, p, without, now).1
    requires Lookup(s.cat.admitted, RouteKey(p, id)) && Lookup(s.cat.allow, RouteKey(p, id))
    requires i < |UsableOf(listing)| && UsableOf(listing)[i].id == id
    requires |UsableOf(without)| <= 2 * |UsableOf(listing)|
    ensures
      var u := Next(t, Resync(s.cat, p, listing, later));
      && u.pending == t.pending && u.rules == t.rules
      && Lookup(u.cat.allow, RouteKey(p, id)) && CatalogRuns.Routes(u.cat, p, id)
  {
    ShortListAccepted(s.cat, p, without, now, listing, later);
    Resynced(t, s.cat, p, listing, later);
    ListedIsRouted(t.cat, p, listing, later, id, i);
  }

  lemma Resynced(t: Race, early: Cat, p: string, raw: seq<RawModel>, now: Time)
    requires t.cat.allow == early.allow && t.cat.admitted == early.admitted
    ensures Next(t, Resync(early, p, raw, now)) == t.(cat := Sync(t.cat, p, raw, now).0)
  {
  }

  /** The drop guard lets a list pass that is at least half as long as the one before. */
  lemma ShortListAccepted(cat: Cat, p: string, without: seq<RawModel>, now: Time, listing: seq<RawModel>, later: Time)
    requires !Sync(cat, p, without, now).1 && |UsableOf(without)| <= 2 * |UsableOf(listing)|
    ensures
      var next := Sync(cat, p, without, now).0;
      next.allow == cat.allow && next.admitted == cat.admitted && !Sync(next, p, listing, later).1
  {
    CatalogSync.SyncIsolation(cat, p, without, now);
    CatalogSync.SyncIsolation(Sync(cat, p, without, now).0, p, listing, later);
  }

  lemma ListedIsRouted(cat: Cat, p: string, listing: seq<RawModel>, later: Time, id: string, i: nat)
    requires TrimmedId(id) && Lookup(cat.admitted, RouteKey(p, id)) && Lookup(cat.allow, RouteKey(p, id))
    requires i < |UsableOf(listing)| && UsableOf(listing)[i].id == id && !Sync(cat, p, listing, later).1
    ensures
      var after := Sync(cat, p, listing, later).0;
      after.allow == cat.allow && CatalogRuns.Routes(after, p, id)
  {
    CatalogSync.FiledOpen(cat, p, listing, later, cat.allow, cat.admitted, id, i);
    var after := Sync(cat, p, listing, later).0;
    var k := |Others(cat.models, p)| + i;
    assert CatalogSync.Open(after.models, k, p, id);
    assert after.models[k].autoRoutable;
  }

  // ---------------------------------------------------------------- which keys settle

  /** A change of the key that the catalog would take. */
  predicate HasTaken(models: seq<Model>, cs: seq<Change>, k: string) {
    exists c :: c in cs && c.key == k && Takes(models, k, c.on)
  }

  predicate TakenAs(models: seq<Model>, cs: seq<Change>, k: string, on: bool) {
    forall c :: c in cs && c.key == k && Takes(models, k, c.on) ==> c.on == on
  }

  ghost predicate SomeTaken(s: Race, k: string) { exists r :: r in s.pending && HasTaken(s.cat.models, s.pending[r], k) }

  /** All pending changes of the key that would be taken now say what its rule says; without
      any, its gate does. */
  ghost predicate Promised(s: Race, k: string) {
    && (forall r :: r in s.pending ==> TakenAs(s.cat.models, s.pending[r], k, Lookup(s.rules, k)))
    && (!SomeTaken(s, k) ==> Lookup(s.cat.allow, k) == Lookup(s.rules, k))
  }

  /** No new rule for the key, and nothing the manager does to its gate or to whether it would
      be taken. */
  predicate LeavesAlone(s: Race, e: Event, k: string) {
    match e
    case Vet(_, _) => true
    case Gate(_) => true
    case Commit(r) => CanCommit(s, r) ==> !Decides(s.vetted[r], k)
    case Manage(op) =>
      var after := CatalogRuns.Apply(s.cat, op);
      && Lookup(after.allow, k) == Lookup(s.cat.allow, k)
      && (Takes(after.models, k, true) <==> Takes(s.cat.models, k, true))
      && (Takes(after.models, k, false) <==> Takes(s.cat.models, k, false))
  }

  predicate LeftAlone(s: Race, es: seq<Event>, k: string)
    decreases |es|
  {
    es == [] || (LeavesAlone(s, es[0], k) && LeftAlone(Next(s, es[0]), es[1..], k))
  }

  /** Whatever else happens, and in whatever order the gates are made, rule and gate of `k` agree
      at the end. */
  ghost predicate Settles(s: Race, k: string) {
    forall es :: LeftAlone(s, es, k) && Run(s, es).pending == map[] ==>
      Lookup(Run(s, es).cat.allow, k) == Lookup(Run(s, es).rules, k)
  }

  lemma HeadTaken(models: seq<Model>, cs: seq<Change>, k: string)
    requires cs != []
    ensures HasTaken(models, cs, k) <==> (cs[0].key == k && Takes(models, k, cs[0].on)) || HasTaken(models, cs[1..], k)
    ensures forall on :: TakenAs(models, cs, k, on) <==>
      (cs[0].key == k && Takes(models, k, cs[0].on) ==> cs[0].on == on) && TakenAs(models, cs[1..], k, on)
  {
    assert cs == [cs[0]] + cs[1..];
  }

  lemma SameTaken(a: seq<Model>, b: seq<Model>, cs: seq<Change>, k: string)
    requires (Takes(a, k, true) <==> Takes(b, k, true)) && (Takes(a, k, false) <==> Takes(b, k, false))
    ensures HasTaken(a, cs, k) <==> HasTaken(b, cs, k)
    ensures forall on :: TakenAs(a, cs, k, on) <==> TakenAs(b, cs, k, on)
  {
    forall on: bool ensures Takes(a, k, on) <==> Takes(b, k, on) {
      if on {} else {}
    }
  }

  /** Two states with the same lists, of which the catalog takes the same for `k`. */
  lemma SamePromise(s: Race, t: Race, k: string)
    requires s.pending == t.pending && Lookup(s.rules, k) == Lookup(t.rules, k)
    requires Lookup(s.cat.allow, k) == Lookup(t.cat.allow, k)
    requires Takes(s.cat.models, k, true) <==> Takes(t.cat.models, k, true)
    requires Takes(s.cat.models, k, false) <==> Takes(t.cat.models, k, false)
    ensures Promised(s, k) ==> Promised(t, k)
  {
    forall r | r in s.pending
      ensures HasTaken(s.cat.models, s.pending[r], k) <==> HasTaken(t.cat.models, s.pending[r], k)
      ensures forall on :: TakenAs(s.cat.models, s.pending[r], k, on) <==> TakenAs(t.cat.models, s.pending[r], k, on)
    {
      SameTaken(s.cat.models, t.cat.models, s.pending[r], k);
    }
  }

  lemma SameFleetTaken(a: seq<Model>, b: seq<Model>, cs: seq<Change>, k: string)
    requires SameFleet(a, b)
    ensures HasTaken(a, cs, k) <==> HasTaken(b, cs, k)
    ensures forall on :: TakenAs(a, cs, k, on) <==> TakenAs(b, cs, k, on)
  {
    SameTakes(a, b, k, true);
    SameTakes(a, b, k, false);
    SameTaken(a, b, cs, k);
  }

  /** What request `q` has left after a gate of request `r`. */
  lemma LeftAfterGate(s: Race, r: nat, k: string, q: nat)
    requires r in s.pending && s.pending[r] != [] && q in s.pending
    ensures
      var t, c := Next(s, Gate(r)), s.pending[r][0];
      && q in t.pending
      && (HasTaken(s.cat.models, s.pending[q], k) ==>
            HasTaken(t.cat.models, t.pending[q], k) || (c.key == k && Takes(s.cat.models, k, c.on)))
      && forall on :: TakenAs(s.cat.models, s.pending[q], k, on) ==> TakenAs(t.cat.models, t.pending[q], k, on)
  {
    OneGate(s, r, k);
    HeadTaken(s.cat.models, s.pending[r], k);
    SameFleetTaken(s.cat.models, Next(s, Gate(r)).cat.models, Next(s, Gate(r)).pending[q], k);
  }

  lemma GatePromise(s: Race, r: nat, k: string)
    requires r in s.pending && s.pending[r] != [] && Promised(s, k)
    ensures Promised(Next(s, Gate(r)), k)
  {
    var t, c := Next(s, Gate(r)), s.pending[r][0];
    OneGate(s, r, k);
    forall q | q in t.pending ensures TakenAs(t.cat.models, t.pending[q], k, Lookup(t.rules, k)) {
      LeftAfterGate(s, r, k, q);
    }
    if c.key == k && Takes(s.cat.models, k, c.on) {
      assert TakenAs(s.cat.models, s.pending[r], k, Lookup(s.rules, k)) && c in s.pending[r];
    } else if SomeTaken(s, k) {
      var q :| q in s.pending && HasTaken(s.cat.models, s.pending[q], k);
      LeftAfterGate(s, r, k, q);
    }
  }

  lemma StepPromise(s: Race, e: Event, k: string)
    requires WellFormed(s) && Promised(s, k) && LeavesAlone(s, e, k)
    ensures Promised(Next(s, e), k)
  {
    var t := Next(s, e);
    match e
    case Vet(_, _) => SamePromise(s, t, k);
    case Manage(_) => SamePromise(s, t, k);
    case Commit(r) =>
      if CanCommit(s, r) {
        RulesOfList(s.rules, s.vetted[r], k);
        CommitPromise(s, r, k);
      }
    case Gate(r) =>
      if r in s.pending {
        if s.pending[r] == [] {
          EndPromise(s, r, k);
        } else {
          GatePromise(s, r, k);
        }
      }
  }

  lemma CommitPromise(s: Race, r: nat, k: string)
    requires CanCommit(s, r) && Promised(s, k) && !Decides(s.vetted[r], k)
    requires Lookup(SetRules(s.rules, s.vetted[r]), k) == Lookup(s.rules, k)
    ensures Promised(Next(s, Commit(r)), k)
  {
    var t := Next(s, Commit(r));
    forall q | q in t.pending ensures TakenAs(t.cat.models, t.pending[q], k, Lookup(t.rules, k)) {
      if q != r {
        assert TakenAs(s.cat.models, s.pending[q], k, Lookup(s.rules, k));
      }
    }
    if SomeTaken(s, k) {
      var q :| q in s.pending && HasTaken(s.cat.models, s.pending[q], k);
      assert HasTaken(t.cat.models, t.pending[q], k);
    }
  }

  lemma EndPromise(s: Race, r: nat, k: string)
    requires r in s.pending && s.pending[r] == [] && Promised(s, k)
    ensures Promised(Next(s, Gate(r)), k)
  {
    var t := Next(s, Gate(r));
    if SomeTaken(s, k) {
      var q :| q in s.pending && HasTaken(s.cat.models, s.pending[q], k);
      assert HasTaken(t.cat.models, t.pending[q], k);
    }
  }

  lemma {:induction false} RunPromise(s: Race, es: seq<Event>, k: string)
    requires WellFormed(s) && Promised(s, k) && LeftAlone(s, es, k)
    ensures Promised(Run(s, es), k)
    decreases |es|
  {
    if es != [] {
      StepKeepsWellFormed(s, es[0]);
      StepPromise(s, es[0], k);
      RunPromise(Next(s, es[0]), es[1..], k);
    }
  }

  // ---------------------------------------------------------------- exactness

  predicate OnlyGates(es: seq<Event>) { forall e :: e in es ==> e.Gate? }

  lemma {:induction false} GatesLeaveAlone(s: Race, es: seq<Event>, k: string)
    requires OnlyGates(es)
    ensures LeftAlone(s, es, k)
    decreases |es|
  {
    if es != [] {
      assert es[0].Gate?;
      GatesLeaveAlone(Next(s, es[0]), es[1..], k);
    }
  }

  /** The gate of `k` after all changes of a list, on a fleet where each is taken or refused. */
  ghost predicate GateBy(models: seq<Model>, cs: seq<Change>, k: string, before: bool, after: bool) {
    && (forall c :: c in cs && c.key == k && Takes(models, k, c.on) ==> after == c.on)
    && (!HasTaken(models, cs, k) ==> after == before)
  }

  /** `t` is `s` without the requests that have made their gates. */
  ghost predicate Drained(s: Race, t: Race, left: map<nat, seq<Change>>) {
    WellFormed(t) && t.pending == left && t.rules == s.rules && SameFleet(s.cat.models, t.cat.models)
  }

  lemma GateByMore(s: Race, r: nat, k: string, after: bool)
    requires WellFormed(s) && r in s.pending && s.pending[r] != []
    requires
      var t := Next(s, Gate(r));
      GateBy(t.cat.models, s.pending[r][1..], k, Lookup(t.cat.allow, k), after)
    ensures GateBy(s.cat.models, s.pending[r], k, Lookup(s.cat.allow, k), after)
  {
    var t, cs := Next(s, Gate(r)), s.pending[r];
    OneGate(s, r, k);
    SameTakes(s.cat.models, t.cat.models, k, true);
    SameTakes(s.cat.models, t.cat.models, k, false);
    SameTaken(s.cat.models, t.cat.models, cs[1..], k);
    HeadTaken(s.cat.models, cs, k);
    HeadAndTail(cs, k);
    forall c | c in cs && c.key == k && Takes(s.cat.models, k, c.on) ensures after == c.on {
      if c in cs[1..] {
        assert Takes(t.cat.models, k, c.on);
      } else {
        assert c == cs[0];
        assert !HasTaken(t.cat.models, cs[1..], k);
      }
    }
  }

  /** Request `r` makes all its gates and ends. */
  lemma {:induction false} DrainOne(s: Race, r: nat, k: string) returns (es: seq<Event>)
    requires WellFormed(s) && r in s.pending
    ensures OnlyGates(es) && Drained(s, Run(s, es), s.pending - {r})
    ensures GateBy(s.cat.models, s.pending[r], k, Lookup(s.cat.allow, k), Lookup(Run(s, es).cat.allow, k))
    decreases |s.pending[r]|
  {
    var t := Next(s, Gate(r));
    StepKeepsWellFormed(s, Gate(r));
    if s.pending[r] == [] {
      es := [Gate(r)];
      OneStep(s, Gate(r));
    } else {
      OneGate(s, r, k);
      var rest := DrainOne(t, r, k);
      es := [Gate(r)] + rest;
      assert es[1..] == rest && Run(s, es) == Run(t, rest);
      assert t.pending - {r} == s.pending - {r};
      SameFleetTransitive(s.cat.models, t.cat.models, Run(t, rest).cat.models);
      GateByMore(s, r, k, Lookup(Run(t, rest).cat.allow, k));
    }
  }

  lemma FewerKeys(m: map<nat, seq<Change>>, q: nat)
    requires q in m
    ensures |m - {q}| < |m|
  {
    assert (m - {q}).Keys == m.Keys - {q};
    assert |(m - {q}).Keys| == |m - {q}| && |m.Keys| == |m|;
  }

  lemma DrainAway(s: Race, q: nat) returns (es: seq<Event>)
    requires WellFormed(s) && q in s.pending
    ensures OnlyGates(es) && Drained(s, Run(s, es), s.pending - {q})
  {
    es := DrainOne(s, q, "");
  }

  lemma DrainedOn(s: Race, first: seq<Event>, rest: seq<Event>, left: map<nat, seq<Change>>, less: map<nat, seq<Change>>)
    requires OnlyGates(first) && Drained(s, Run(s, first), left)
    requires OnlyGates(rest) && Drained(Run(s, first), Run(Run(s, first), rest), less)
    ensures OnlyGates(first + rest) && Drained(s, Run(s, first + rest), less)
  {
    RunConcat(s, first, rest);
    SameFleetTransitive(s.cat.models, Run(s, first).cat.models, Run(s, first + rest).cat.models);
  }

  /** All requests but `r` make their gates and end. */
  lemma {:induction false} DrainOthers(s: Race, r: nat) returns (es: seq<Event>)
    requires WellFormed(s) && r in s.pending
    ensures OnlyGates(es) && Drained(s, Run(s, es), map[r := s.pending[r]])
    decreases |s.pending|
  {
    if q :| q in s.pending && q != r {
      var first := DrainAway(s, q);
      var t := Run(s, first);
      FewerKeys(s.pending, q);
      assert t.pending[r] == s.pending[r];
      var rest := DrainOthers(t, r);
      DrainedOn(s, first, rest, s.pending - {q}, map[r := s.pending[r]]);
      es := first + rest;
    } else {
      es := [];
      OneLeft(s, r);
    }
  }

  lemma OneLeft(s: Race, r: nat)
    requires WellFormed(s) && r in s.pending && forall q :: q in s.pending ==> q == r
    ensures OnlyGates([]) && Drained(s, Run(s, []), map[r := s.pending[r]])
  {
    assert s.pending == map[r := s.pending[r]];
  }

  /** All requests make their gates and end, and none of them moves the gate of `k`. */
  lemma {:induction false} DrainAll(s: Race, k: string) returns (es: seq<Event>)
    requires WellFormed(s) && !SomeTaken(s, k)
    ensures OnlyGates(es) && Drained(s, Run(s, es), map[]) && Lookup(Run(s, es).cat.allow, k) == Lookup(s.cat.allow, k)
    decreases |s.pending|
  {
    if s.pending == map[] {
      es := [];
    } else {
      var r :| r in s.pending;
      var first := DrainOne(s, r, k);
      var t := Run(s, first);
      FewerKeys(s.pending, r);
      SameTakes(s.cat.models, t.cat.models, k, true);
      SameTakes(s.cat.models, t.cat.models, k, false);
      forall q | q in t.pending ensures !HasTaken(t.cat.models, t.pending[q], k) {
        SameTaken(s.cat.models, t.cat.models, t.pending[q], k);
      }
      var rest := DrainAll(t, k);
      RunConcat(s, first, rest);
      es := first + rest;
      SameFleetTransitive(s.cat.models, t.cat.models, Run(t, rest).cat.models);
    }
  }

  /** One change that contradicts the rule and will be taken can be the last to be made. */
  lemma ContradictionBreaks(s: Race, r: nat, c: Change) returns (es: seq<Event>)
    requires WellFormed(s) && r in s.pending && c in s.pending[r]
    requires Takes(s.cat.models, c.key, c.on) && c.on != Lookup(s.rules, c.key)
    ensures
      var t := Run(s, es);
      OnlyGates(es) && t.pending == map[] && Lookup(t.cat.allow, c.key) != Lookup(t.rules, c.key)
  {
    var first := DrainOthers(s, r);
    var t := Run(s, first);
    SameTakes(s.cat.models, t.cat.models, c.key, c.on);
    var rest := DrainOne(t, r, c.key);
    assert map[r := s.pending[r]] - {r} == map[];
    RunConcat(s, first, rest);
    es := first + rest;
  }

  /** Rule and gate of a key agree at the end of every run that leaves the key alone, whatever
      order the gates are made in, if and only if all pending changes of the key that will be
      taken say what its rule says, and without any its gate does. */
  lemma SettlesIff(s: Race, k: string)
    requires WellFormed(s)
    ensures Settles(s, k) <==> Promised(s, k)
  {
    if Promised(s, k) {
      forall es | LeftAlone(s, es, k) && Run(s, es).pending == map[]
        ensures Lookup(Run(s, es).cat.allow, k) == Lookup(Run(s, es).rules, k)
      {
        RunPromise(s, es, k);
      }
    } else if r :| r in s.pending && !TakenAs(s.cat.models, s.pending[r], k, Lookup(s.rules, k)) {
      var c :| c in s.pending[r] && c.key == k && Takes(s.cat.models, k, c.on) && c.on != Lookup(s.rules, k);
      var es := ContradictionBreaks(s, r, c);
      GatesLeaveAlone(s, es, k);
    } else {
      var es := DrainAll(s, k);
      GatesLeaveAlone(s, es, k);
    }
  }

  // ---------------------------------------------------------------- a request on its own

  function Vets(r: nat, cs: seq<Change>): seq<Event> {
    if cs == [] then [] else Vets(r, cs[..|cs| - 1]) + [Vet(r, cs[|cs| - 1])]
  }

  function Gates(r: nat, n: nat): seq<Event> { if n == 0 then [Gate(r)] else [Gate(r)] + Gates(r, n - 1) }

  function Request(r: nat, cs: seq<Change>): seq<Event> { Vets(r, cs) + [Commit(r)] + Gates(r, |cs|) }

  lemma VetOneMore(s: Race, r: nat, cs: seq<Change>, c: Change)
    requires r !in s.vetted && r !in s.pending && |cs| < 100
    requires c.key !in KeysOf(cs) && ChangeOk(s.cat.models, c)
    ensures Next(Vetted(s, r, cs), Vet(r, c)) == Vetted(s, r, cs + [c])
  {
    assert s.vetted[r := cs][r := cs + [c]] == s.vetted[r := cs + [c]];
  }

  /** `s` when request `r` has passed validation with `cs` so far. */
  function Vetted(s: Race, r: nat, cs: seq<Change>): Race {
    if cs == [] then s else s.(vetted := s.vetted[r := cs])
  }

  lemma {:induction false} VetsAlone(s: Race, r: nat, cs: seq<Change>)
    requires r !in s.vetted && r !in s.pending && |cs| <= 100 && DistinctKeys(cs) && AllChangesOk(s.cat.models, cs)
    ensures Run(s, Vets(r, cs)) == Vetted(s, r, cs)
  {
    if cs != [] {
      var first, c := cs[..|cs| - 1], cs[|cs| - 1];
      VetsAlone(s, r, first);
      NewKey(cs);
      VetOneMore(s, r, first, c);
      RunConcat(s, Vets(r, first), [Vet(r, c)]);
      OneStep(Vetted(s, r, first), Vet(r, c));
      assert first + [c] == cs;
    }
  }

  lemma NewKey(cs: seq<Change>)
    requires cs != [] && DistinctKeys(cs)
    ensures cs[|cs| - 1].key !in KeysOf(cs[..|cs| - 1])
  {
  }

  lemma {:induction false} GatesAlone(s: Race, r: nat, cs: seq<Change>)
    requires r in s.pending && s.pending[r] == cs
    ensures Run(s, Gates(r, |cs|)) == s.(cat := SetAllows(s.cat, cs), pending := s.pending - {r})
    decreases |cs|
  {
    var t := Next(s, Gate(r));
    if cs == [] {
      OneStep(s, Gate(r));
    } else {
      assert Gates(r, |cs|)[1..] == Gates(r, |cs| - 1);
      GatesAlone(t, r, cs[1..]);
      assert t.pending - {r} == s.pending - {r};
    }
  }

  lemma {:induction false} CommitAlone(s: Race, r: nat, cs: seq<Change>)
    requires r !in s.vetted && r !in s.pending && cs != []
    ensures
      Next(Vetted(s, r, cs), Commit(r)) == s.(rules := SetRules(s.rules, cs), pending := s.pending[r := cs])
  {
    assert s.vetted[r := cs] - {r} == s.vetted;
  }

  /** With nothing in between, the sections of a request are the application of its list. */
  lemma AloneIsApply(s: Race, r: nat, cs: seq<Change>, audits: seq<Audit>, revision: string)
    requires r !in s.vetted && r !in s.pending && Valid(s.cat.models, cs)
    ensures
      var (g, ok) := ApplyStep(Gov(s.rules, s.cat, audits), cs, revision);
      ok && Run(s, Request(r, cs)) == s.(rules := g.rules, cat := g.cat)
  {
    VetsAlone(s, r, cs);
    CommitAlone(s, r, cs);
    var s2 := s.(rules := SetRules(s.rules, cs), pending := s.pending[r := cs]);
    OneStep(Vetted(s, r, cs), Commit(r));
    GatesAlone(s2, r, cs);
    RunConcat(s, Vets(r, cs), [Commit(r)]);
    RunConcat(s, Vets(r, cs) + [Commit(r)], Gates(r, |cs|));
    assert s.pending[r := cs] - {r} == s.pending;
  }

  // ---------------------------------------------------------------- in plain values

  /** A change is vetted on the catalog of its moment: it joins the list of its request when it
      passes there and the key is new; otherwise the request is over, without a trace. */
  lemma VetWrites(s: Race, r: nat, p: string, id: string, on: bool)
    requires r !in s.pending && SlashFree(p)
    ensures
      var c, so := Change(p + "/" + id, on), if r in s.vetted then s.vetted[r] else [];
      var t := Next(s, Vet(r, c));
      && t.rules == s.rules && t.cat == s.cat && t.pending == s.pending
      && t.vetted == if |so| <= 99 && (forall d :: d in so ==> d.key != c.key) && GovernanceRules.Passes(s.cat.models, p, id, on)
                     then s.vetted[r := so + [c]] else s.vetted - {r}
  {
    PassesIff(s.cat.models, p, id, on);
  }
}
