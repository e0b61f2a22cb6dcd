/** Approval rules and their undo (`internal/api/governance_rules.go`).  Requests change the
    rule table and the catalog's allow gate together; an undo replays the values the rules
    had before.  Revision strings come from the clock and are parameters. */
module GovernanceRules {
  import opened Keys
  import opened CatalogModel
  import opened Catalog
  import opened CatalogManager
  import CatalogEntries

  datatype Change = Change(key: string, on: bool)
  datatype Action = Apply | Undo
  datatype Audit = Audit(revision: string, action: Action, changes: seq<Change>, previous: seq<Change>)
  datatype Gov = Gov(rules: map<string, bool>, cat: Cat, audits: seq<Audit>)

  // ---------------------------------------------------------------- validation

  /** The catalog entry a key names: the first with its two parts. */
  function Named(models: seq<Model>, key: string): Option<nat> {
    match SplitKey(key)
    case None => None
    case Some(parts) =>
      var i := IndexOf(models, parts.0, parts.1);
      if parts.0 == "" || parts.1 == "" || i == |models| then None else Some(i)
  }

  predicate Ready(models: seq<Model>, key: string) {
    var n := Named(models, key);
    n.Some? && n.value < |models| && AutoApprovalReady(models[n.value])
  }

  predicate ChangeOk(models: seq<Model>, c: Change) {
    Named(models, c.key).Some? && (c.on ==> Ready(models, c.key))
  }

  predicate DistinctKeys(cs: seq<Change>) { forall i, j :: 0 <= i < j < |cs| ==> cs[i].key != cs[j].key }

  predicate Valid(models: seq<Model>, cs: seq<Change>) {
    1 <= |cs| <= 100 && DistinctKeys(cs) && forall i :: 0 <= i < |cs| ==> ChangeOk(models, cs[i])
  }

  // ---------------------------------------------------------------- effects

  function KeysOf(cs: seq<Change>): set<string> { set c | c in cs :: c.key }

  /** What a list of changes, made in order, decides about a key. */
  function Decided(cs: seq<Change>, k: string, otherwise: bool): bool {
    if cs == [] then otherwise
    else Decided(cs[1..], k, if cs[0].key == k then cs[0].on else otherwise)
  }

  function SetRules(rules: map<string, bool>, cs: seq<Change>): map<string, bool>
    decreases |cs|
  {
    if cs == [] then rules else SetRules(rules[cs[0].key := cs[0].on], cs[1..])
  }

  function SetAllowByKey(cat: Cat, c: Change): Cat {
    match SplitKey(c.key)
    case None => cat
    case Some(parts) => SetAllow(cat, parts.0, parts.1, c.on).0
  }

  function SetAllows(cat: Cat, cs: seq<Change>): Cat
    decreases |cs|
  {
    if cs == [] then cat else SetAllows(SetAllowByKey(cat, cs[0]), cs[1..])
  }

  function Previous(rules: map<string, bool>, cs: seq<Change>): (r: seq<Change>)
    ensures |r| == |cs| && forall i :: 0 <= i < |r| ==> r[i] == Change(cs[i].key, Lookup(rules, cs[i].key))
  {
    seq(|cs|, i requires 0 <= i < |cs| => Change(cs[i].key, Lookup(rules, cs[i].key)))
  }

  function Changed(g: Gov, cs: seq<Change>, audit: Audit): Gov {
    Gov(SetRules(g.rules, cs), SetAllows(g.cat, cs), g.audits + [audit])
  }

  function ApplyStep(g: Gov, cs: seq<Change>, revision: string): (Gov, bool) {
    if !Valid(g.cat.models, cs) then (g, false)
    else (Changed(g, cs, Audit(revision, Apply, cs, Previous(g.rules, cs))), true)
  }

  /** The recorded values of the latest application filed under a revision. */
  function FindApply(audits: seq<Audit>, revision: string): Option<seq<Change>> {
    if audits == [] then None
    else
      var a := audits[|audits| - 1];
      if a.revision == revision && a.action == Apply then Some(a.previous)
      else FindApply(audits[..|audits| - 1], revision)
  }

  function UndoStep(g: Gov, revision: string, stamp: string): (Gov, bool) {
    var target := FindApply(g.audits, revision);
    if revision == "" || target.None? || !Valid(g.cat.models, target.value) then (g, false)
    else (Changed(g, target.value, Audit(stamp, Undo, target.value, [])), true)
  }

  // ---------------------------------------------------------------- the runtime

  class Runtime {
    const manager: Manager
    var rules: map<string, bool>
    var audits: seq<Audit>

    function View(): Gov
      reads this, manager
    {
      Gov(rules, manager.View(), audits)
    }

    /** A runtime without a directory to load from. */
    constructor (manager: Manager)
      ensures this.manager == manager && View() == Gov(manager.allow, manager.View(), [])
    {
      this.manager, rules, audits := manager, manager.allow, [];
    }

    /** `load`: replays the saved rules, in an arbitrary order, onto what the catalog has. */
    method Load(loaded: map<string, bool>, loadedAudits: seq<Audit>)
      modifies this, manager
      ensures audits == loadedAudits && SameFleet(old(manager.models), manager.models)
      ensures forall k :: Lookup(rules, k) == RuleLoaded(old(manager.View()), loaded, k)
      ensures forall k :: Lookup(manager.allow, k) == GateLoaded(old(manager.View()), loaded, k)
    {
      audits := loadedAudits;
      rules := manager.allow;
      ghost var start := manager.View();
      var todo := loaded.Keys;
      while todo != {}
        invariant todo <= loaded.Keys && audits == loadedAudits
        invariant SameFleet(start.models, manager.models)
        invariant RulesUpTo(start, loaded, todo, rules) && GatesUpTo(start, loaded, todo, manager.allow)
      {
        var key :| key in todo;
        var allow := loaded[key];
        ghost var before := manager.models;
        SameTakes(start.models, before, key, allow);
        ReplayedUpTo(start, loaded, todo, rules, manager.allow, key);
        todo := todo - {key};
        ReplayOne(key, allow);
        SameFleetTransitive(start.models, before, manager.models);
      }
    }

    method ReplayOne(key: string, allow: bool)
      modifies this`rules, manager
      ensures SameFleet(old(manager.models), manager.models)
      ensures manager.allow == GatesWith(old(manager.models), old(manager.allow), key, allow)
      ensures rules == RulesWith(old(manager.models), old(rules), key, allow)
    {
      if SplitKey(key).None? {
        return;
      }
      if allow {
        var accepted := SetByKey(key, true);
        if !accepted {
          rules := rules[key := false];
          return;
        }
      }
      SameTakes(old(manager.models), manager.models, key, allow);
      ghost var before := manager.models;
      var _ := SetByKey(key, allow);
      SameFleetTransitive(old(manager.models), before, manager.models);
      rules := rules[key := allow];
    }

    method SetByKey(key: string, on: bool) returns (ok: bool)
      requires SplitKey(key).Some?
      modifies manager
      ensures ok <==> Takes(old(manager.models), key, on)
      ensures SameFleet(old(manager.models), manager.models)
      ensures manager.allow == if ok then old(manager.allow)[key := on] else old(manager.allow)
    {
      var parts := SplitKey(key).value;
      Replayed(manager.View(), key, on);
      ok := manager.SetAllow(parts.0, parts.1, on);
    }

    method Validate(cs: seq<Change>) returns (ok: bool)
      ensures ok <==> Valid(manager.models, cs)
    {
      if |cs| == 0 || |cs| > 100 {
        return false;
      }
      var seen: set<string> := {};
      for n := 0 to |cs|
        invariant forall i :: 0 <= i < n ==> cs[i].key in seen && ChangeOk(manager.models, cs[i])
        invariant forall k :: k in seen ==> exists i :: 0 <= i < n && cs[i].key == k
        invariant forall i, j :: 0 <= i < j < n ==> cs[i].key != cs[j].key
      {
        var c := cs[n];
        if c.key in seen {
          return false;
        }
        seen := seen + {c.key};
        var changeOk := CheckChange(manager.models, c);
        if !changeOk {
          return false;
        }
      }
      ok := true;
    }

    method ApplyRules(cs: seq<Change>, revision: string) returns (ok: bool)
      modifies this, manager
      ensures (View(), ok) == ApplyStep(old(View()), cs, revision)
    {
      ok := Validate(cs);
      if !ok {
        return;
      }
      var previous;
      rules, previous := Replace(rules, cs);
      audits := audits + [Audit(revision, Apply, cs, previous)];
      ApplyManager(cs);
    }

    method UndoRules(revision: string, stamp: string) returns (ok: bool)
      modifies this, manager
      ensures (View(), ok) == UndoStep(old(View()), revision, stamp)
    {
      if revision == "" {
        return false;
      }
      var target := Search(revision);
      if target.None? {
        return false;
      }
      var changes := target.value;
      ok := Validate(changes);
      if !ok {
        return;
      }
      var replaced;
      rules, replaced := Replace(rules, changes);
      audits := audits + [Audit(stamp, Undo, changes, [])];
      ApplyManager(changes);
    }

    /** From the latest audit backwards. */
    method Search(revision: string) returns (target: Option<seq<Change>>)
      ensures target == FindApply(audits, revision)
    {
      var i := |audits|;
      assert audits[..i] == audits;
      while i > 0
        invariant 0 <= i <= |audits|
        invariant FindApply(audits, revision) == FindApply(audits[..i], revision)
      {
        i := i - 1;
        assert audits[..i + 1][..i] == audits[..i];
        if audits[i].revision == revision && audits[i].action == Apply {
          return Some(audits[i].previous);
        }
      }
      target := None;
    }

    method ApplyManager(cs: seq<Change>)
      requires forall c :: c in cs ==> SplitKey(c.key).Some?
      modifies manager
      ensures manager.View() == SetAllows(old(manager.View()), cs)
    {
      for i := 0 to |cs|
        invariant SetAllows(old(manager.View()), cs) == SetAllows(manager.View(), cs[i..])
      {
        assert cs[i] in cs && cs[i..][1..] == cs[i + 1..];
        var parts := SplitKey(cs[i].key).value;
        var _ := manager.SetAllow(parts.0, parts.1, cs[i].on);
      }
    }
  }

  /** The rule table after a list of changes, and the values it had before. */
  method Replace(rules: map<string, bool>, cs: seq<Change>) returns (after: map<string, bool>, previous: seq<Change>)
    requires DistinctKeys(cs)
    ensures after == SetRules(rules, cs) && previous == Previous(rules, cs)
  {
    after, previous := rules, [];
    for i := 0 to |cs|
      invariant SetRules(rules, cs) == SetRules(after, cs[i..])
      invariant forall j :: i <= j < |cs| ==> Lookup(after, cs[j].key) == Lookup(rules, cs[j].key)
      invariant previous == Previous(rules, cs[..i])
    {
      assert cs[i..][1..] == cs[i + 1..];
      previous := previous + [Change(cs[i].key, Lookup(after, cs[i].key))];
      after := after[cs[i].key := cs[i].on];
    }
    assert cs[..|cs|] == cs;
  }

  method CheckChange(models: seq<Model>, c: Change) returns (ok: bool)
    ensures ok <==> ChangeOk(models, c)
  {
    var parts := SplitKey(c.key);
    if parts.None? || parts.value.0 == "" || parts.value.1 == "" {
      return false;
    }
    for i := 0 to |models|
      invariant forall j :: 0 <= j < i ==> !(models[j].provider == parts.value.0 && models[j].id == parts.value.1)
    {
      if models[i].provider == parts.value.0 && models[i].id == parts.value.1 {
        assert Named(models, c.key) == Some(i);
        var ready := CheckReady(models[i]);
        return !c.on || ready;
      }
    }
    ok := false;
  }

  // ---------------------------------------------------------------- what a list of changes does

  /** The same entries, apart from their routing flag. */
  predicate SameFleet(a: seq<Model>, b: seq<Model>) {
    |a| == |b| && forall i :: 0 <= i < |a| ==> b[i] == a[i].(autoRoutable := b[i].autoRoutable)
  }

  lemma {:induction false} SameIndex(a: seq<Model>, b: seq<Model>, p: string, id: string)
    requires SameFleet(a, b)
    ensures IndexOf(a, p, id) == IndexOf(b, p, id)
  {
    if a != [] {
      SameIndex(a[1..], b[1..], p, id);
    }
  }

  lemma SameNamed(a: seq<Model>, b: seq<Model>, k: string)
    requires SameFleet(a, b)
    ensures Named(a, k) == Named(b, k) && (Ready(a, k) <==> Ready(b, k))
  {
    if SplitKey(k).Some? {
      SameIndex(a, b, SplitKey(k).value.0, SplitKey(k).value.1);
    }
  }

  lemma SameFleetTransitive(a: seq<Model>, b: seq<Model>, c: seq<Model>)
    requires SameFleet(a, b) && SameFleet(b, c)
    ensures SameFleet(a, c)
  {
  }

  lemma SameChangeOk(a: seq<Model>, b: seq<Model>, cs: seq<Change>)
    requires SameFleet(a, b)
    ensures forall i :: 0 <= i < |cs| ==> (ChangeOk(a, cs[i]) <==> ChangeOk(b, cs[i]))
  {
    forall i | 0 <= i < |cs| ensures ChangeOk(a, cs[i]) <==> ChangeOk(b, cs[i]) {
      SameNamed(a, b, cs[i].key);
    }
  }

  // ---------------------------------------------------------------- replaying saved rules

  /** `SetAllow` takes the value for this key. */
  predicate Takes(models: seq<Model>, key: string, on: bool) {
    SplitKey(key).Some?
    && var i := IndexOf(models, SplitKey(key).value.0, SplitKey(key).value.1);
       i < |models| && (on ==> AutoApprovalReady(models[i]))
  }

  predicate RuleLoaded(start: Cat, loaded: map<string, bool>, k: string) {
    if k in loaded && SplitKey(k).Some? then loaded[k] && Takes(start.models, k, true) else Lookup(start.allow, k)
  }

  predicate GateLoaded(start: Cat, loaded: map<string, bool>, k: string) {
    if k in loaded && Takes(start.models, k, loaded[k]) then loaded[k] else Lookup(start.allow, k)
  }

  /** Rules and gates after one saved rule. */
  function RulesWith(models: seq<Model>, rules: map<string, bool>, key: string, on: bool): map<string, bool> {
    if SplitKey(key).None? then rules else rules[key := on && Takes(models, key, on)]
  }

  function GatesWith(models: seq<Model>, allow: map<string, bool>, key: string, on: bool): map<string, bool> {
    if Takes(models, key, on) then allow[key := on] else allow
  }

  /** The tables when the keys in `todo` have still to be replayed. */
  ghost predicate RulesUpTo(start: Cat, loaded: map<string, bool>, todo: set<string>, rules: map<string, bool>) {
    forall k :: Lookup(rules, k) == if k in todo then Lookup(start.allow, k) else RuleLoaded(start, loaded, k)
  }

  ghost predicate GatesUpTo(start: Cat, loaded: map<string, bool>, todo: set<string>, allow: map<string, bool>) {
    forall k :: Lookup(allow, k) == if k in todo then Lookup(start.allow, k) else GateLoaded(start, loaded, k)
  }

  lemma ReplayedUpTo(start: Cat, loaded: map<string, bool>, todo: set<string>, rules: map<string, bool>,
                     allow: map<string, bool>, key: string)
    requires key in loaded && key in todo
    requires RulesUpTo(start, loaded, todo, rules) && GatesUpTo(start, loaded, todo, allow)
    ensures RulesUpTo(start, loaded, todo - {key}, RulesWith(start.models, rules, key, loaded[key]))
    ensures GatesUpTo(start, loaded, todo - {key}, GatesWith(start.models, allow, key, loaded[key]))
  {
    forall k
      ensures Lookup(RulesWith(start.models, rules, key, loaded[key]), k) ==
              if k in todo - {key} then Lookup(start.allow, k) else RuleLoaded(start, loaded, k)
    {
      assert Lookup(rules, k) == if k in todo then Lookup(start.allow, k) else RuleLoaded(start, loaded, k);
    }
    forall k
      ensures Lookup(GatesWith(start.models, allow, key, loaded[key]), k) ==
              if k in todo - {key} then Lookup(start.allow, k) else GateLoaded(start, loaded, k)
    {
      assert Lookup(allow, k) == if k in todo then Lookup(start.allow, k) else GateLoaded(start, loaded, k);
    }
  }

  lemma SameTakes(a: seq<Model>, b: seq<Model>, key: string, on: bool)
    requires SameFleet(a, b)
    ensures Takes(a, key, on) <==> Takes(b, key, on)
  {
    if SplitKey(key).Some? {
      SameIndex(a, b, SplitKey(key).value.0, SplitKey(key).value.1);
    }
  }

  lemma Replayed(cat: Cat, key: string, on: bool)
    requires SplitKey(key).Some?
    ensures
      var parts := SplitKey(key).value;
      var (after, ok) := SetAllow(cat, parts.0, parts.1, on);
      && (ok <==> Takes(cat.models, key, on)) && SameFleet(cat.models, after.models)
      && after.allow == if ok then cat.allow[key := on] else cat.allow
  {
    var parts := SplitKey(key).value;
    JoinSplitKey(key);
    if Takes(cat.models, key, on) {
      var i := IndexOf(cat.models, parts.0, parts.1);
      Rerouted(cat.models, i, on);
      assert SetAllow(cat, parts.0, parts.1, on).0.models == Reroute(cat.models, i, on);
    } else {
      assert SetAllow(cat, parts.0, parts.1, on) == (cat, false);
    }
  }

  /** After a replay every approval in the rules has its gate open; rules and gates disagree
      on a key exactly when its gate was open and the catalog refused the saved rule. */
  lemma ReplayAgreesIff(start: Cat, loaded: map<string, bool>, k: string)
    ensures RuleLoaded(start, loaded, k) ==> GateLoaded(start, loaded, k)
    ensures RuleLoaded(start, loaded, k) == GateLoaded(start, loaded, k) <==>
      !(k in loaded && SplitKey(k).Some? && Lookup(start.allow, k) && !Takes(start.models, k, loaded[k]))
  {
  }

  /** Entry `i` is the one its own key names. */
  predicate Owner(models: seq<Model>, i: nat)
    requires i < |models|
  {
    var m := models[i];
    m.provider != "" && m.id != "" && IndexOf(models, m.provider, m.id) == i
  }

  ghost predicate SlashFreeModels(models: seq<Model>) {
    forall i :: 0 <= i < |models| ==> SlashFree(models[i].provider)
  }

  lemma SameOwner(a: seq<Model>, b: seq<Model>, i: nat)
    requires SameFleet(a, b) && i < |a|
    ensures Owner(a, i) == Owner(b, i) && KeyOf(a[i]) == KeyOf(b[i])
  {
    SameIndex(a, b, a[i].provider, a[i].id);
  }

  function Reroute(models: seq<Model>, n: nat, on: bool): seq<Model>
    requires n < |models|
  {
    models[n := models[n].(autoRoutable := on && models[n].status == Active)]
  }

  /** One approval: the allow gate of its key, and the routing flag of the entry it names. */
  lemma OneChange(cat: Cat, c: Change)
    requires ChangeOk(cat.models, c)
    ensures
      var n := Named(cat.models, c.key).value;
      && n < |cat.models| && Owner(cat.models, n) && KeyOf(cat.models[n]) == c.key
      && SetAllowByKey(cat, c) == Cat(Reroute(cat.models, n, c.on), cat.allow[c.key := c.on], cat.admitted, cat.last)
  {
    JoinSplitKey(c.key);
  }

  lemma Rerouted(models: seq<Model>, n: nat, on: bool)
    requires n < |models|
    ensures SameFleet(models, Reroute(models, n, on))
  {
  }

  /** Owners of one key are one entry. */
  lemma OwnersAreUnique(models: seq<Model>, i: nat, n: nat)
    requires i < |models| && n < |models| && Owner(models, i) && Owner(models, n)
    requires KeyOf(models[i]) == KeyOf(models[n]) && SlashFree(models[i].provider) && SlashFree(models[n].provider)
    ensures i == n
  {
    RouteKeyInjective(models[i].provider, models[i].id, models[n].provider, models[n].id);
  }

  lemma KeysOfFirst(cs: seq<Change>)
    requires cs != []
    ensures KeysOf(cs) == {cs[0].key} + KeysOf(cs[1..])
  {
    assert cs == [cs[0]] + cs[1..];
  }

  lemma {:induction false} DecidedIs(cs: seq<Change>, k: string, otherwise: bool)
    ensures k !in KeysOf(cs) ==> Decided(cs, k, otherwise) == otherwise
    ensures k in KeysOf(cs) ==> Decided(cs, k, otherwise) == Decided(cs, k, false)
  {
    if cs != [] {
      KeysOfFirst(cs);
      DecidedIs(cs[1..], k, if cs[0].key == k then cs[0].on else otherwise);
      DecidedIs(cs[1..], k, if cs[0].key == k then cs[0].on else false);
    }
  }

  lemma {:induction false} RulesAfter(rules: map<string, bool>, cs: seq<Change>, k: string)
    ensures Lookup(SetRules(rules, cs), k) == Decided(cs, k, Lookup(rules, k))
    decreases |cs|
  {
    if cs != [] {
      RulesAfter(rules[cs[0].key := cs[0].on], cs[1..], k);
    }
  }

  predicate AllChangesOk(models: seq<Model>, cs: seq<Change>) {
    forall j :: 0 <= j < |cs| ==> ChangeOk(models, cs[j])
  }

  /** A list of changes keeps the fleet and decides the allow gate of every key it names. */
  lemma {:induction false} GateAfter(cat: Cat, cs: seq<Change>, k: string)
    requires AllChangesOk(cat.models, cs)
    ensures
      var after := SetAllows(cat, cs);
      && SameFleet(cat.models, after.models) && after.admitted == cat.admitted && after.last == cat.last
      && Lookup(after.allow, k) == Decided(cs, k, Lookup(cat.allow, k))
    decreases |cs|
  {
    if cs != [] {
      var next := SetAllowByKey(cat, cs[0]);
      OneChange(cat, cs[0]);
      Rerouted(cat.models, Named(cat.models, cs[0].key).value, cs[0].on);
      SameChangeOk(cat.models, next.models, cs);
      GateAfter(next, cs[1..], k);
      SameFleetTransitive(cat.models, next.models, SetAllows(next, cs[1..]).models);
    }
  }

  /** The routing flag of an entry after a list of changes. */
  function FlagAfter(models: seq<Model>, cs: seq<Change>, i: nat): bool
    requires i < |models|
  {
    var m := models[i];
    if Owner(models, i) && KeyOf(m) in KeysOf(cs) then Decided(cs, KeyOf(m), false) && m.status == Active
    else m.autoRoutable
  }

  lemma OneFlag(cat: Cat, c: Change, i: nat)
    requires ChangeOk(cat.models, c) && SlashFreeModels(cat.models) && i < |cat.models|
    ensures
      var next := SetAllowByKey(cat, c).models;
      && SameFleet(cat.models, next) && SlashFreeModels(next)
      && next[i].autoRoutable == FlagAfter(cat.models, [c], i)
  {
    var n := Named(cat.models, c.key).value;
    OneChange(cat, c);
    Rerouted(cat.models, n, c.on);
    assert c in [c] && KeysOf([c]) == {c.key} && Decided([c], c.key, false) == c.on;
    if Owner(cat.models, i) && KeyOf(cat.models[i]) == c.key {
      OwnersAreUnique(cat.models, i, n);
    }
  }

  lemma FlagConcat(models: seq<Model>, next: seq<Model>, cs: seq<Change>, i: nat)
    requires cs != [] && i < |models| && SameFleet(models, next)
    requires next[i].autoRoutable == FlagAfter(models, [cs[0]], i)
    ensures FlagAfter(next, cs[1..], i) == FlagAfter(models, cs, i)
  {
    var key := KeyOf(models[i]);
    SameOwner(models, next, i);
    KeysOfFirst(cs);
    DecidedIs(cs[1..], key, if cs[0].key == key then cs[0].on else false);
    assert Decided([cs[0]], key, false) == (cs[0].key == key && cs[0].on);
  }

  /** It sets the routing flag of exactly the entries it names. */
  lemma {:induction false} RoutingAfter(cat: Cat, cs: seq<Change>, i: nat)
    requires AllChangesOk(cat.models, cs) && SlashFreeModels(cat.models) && i < |cat.models|
    ensures i < |SetAllows(cat, cs).models| && SetAllows(cat, cs).models[i].autoRoutable == FlagAfter(cat.models, cs, i)
    decreases |cs|
  {
    if cs != [] {
      var next := SetAllowByKey(cat, cs[0]);
      OneFlag(cat, cs[0], i);
      SameChangeOk(cat.models, next.models, cs);
      RoutingAfter(next, cs[1..], i);
      FlagConcat(cat.models, next.models, cs, i);
    }
  }

  // ---------------------------------------------------------------- apply and undo

  lemma PreviousOfTail(rules: map<string, bool>, cs: seq<Change>)
    requires cs != []
    ensures Previous(rules, cs)[1..] == Previous(rules, cs[1..])
  {
  }

  lemma {:induction false} DecidedByPrevious(rules: map<string, bool>, cs: seq<Change>, k: string, otherwise: bool)
    ensures KeysOf(Previous(rules, cs)) == KeysOf(cs)
    ensures Decided(Previous(rules, cs), k, otherwise) == if k in KeysOf(cs) then Lookup(rules, k) else otherwise
  {
    if cs != [] {
      PreviousOfTail(rules, cs);
      DecidedByPrevious(rules, cs[1..], k, if cs[0].key == k then Lookup(rules, k) else otherwise);
      KeysOfFirst(cs);
      KeysOfFirst(Previous(rules, cs));
    }
  }

  /** The state `t` is `g` with the given keys set back to what the rules said in `g`. */
  ghost predicate Rewound(g: Gov, t: Gov, keys: set<string>) {
    && SameFleet(g.cat.models, t.cat.models) && t.cat.admitted == g.cat.admitted && t.cat.last == g.cat.last
    && (forall k :: Lookup(t.rules, k) == Lookup(g.rules, k))
    && (forall k :: Lookup(t.cat.allow, k) == if k in keys then Lookup(g.rules, k) else Lookup(g.cat.allow, k))
    && forall i :: 0 <= i < |t.cat.models| ==>
         t.cat.models[i].autoRoutable == FlagRewound(g, keys, i)
  }

  function FlagRewound(g: Gov, keys: set<string>, i: nat): bool
    requires i < |g.cat.models|
  {
    var m := g.cat.models[i];
    if Owner(g.cat.models, i) && KeyOf(m) in keys then Lookup(g.rules, KeyOf(m)) && m.status == Active
    else m.autoRoutable
  }

  /** Every key that was approved before is still one that may be approved. */
  ghost predicate MayReturn(g: Gov, keys: set<string>) {
    forall k :: k in keys && Lookup(g.rules, k) ==> Ready(g.cat.models, k)
  }

  /** The recorded values of a valid application are themselves valid exactly when every
      key that was approved before is ready for approval. */
  lemma PreviousValidIff(g: Gov, cs: seq<Change>, models: seq<Model>)
    requires Valid(g.cat.models, cs) && SameFleet(g.cat.models, models)
    ensures Valid(models, Previous(g.rules, cs)) <==> MayReturn(g, KeysOf(cs))
  {
    var prev := Previous(g.rules, cs);
    SameChangeOk(g.cat.models, models, cs);
    SameChangeOk(g.cat.models, models, prev);
    forall i | 0 <= i < |cs|
      ensures ChangeOk(models, prev[i]) <==> (Lookup(g.rules, cs[i].key) ==> Ready(g.cat.models, cs[i].key))
    {
      assert ChangeOk(g.cat.models, cs[i]);
      SameNamed(g.cat.models, models, cs[i].key);
    }
    if Valid(models, prev) {
      forall k | k in KeysOf(cs) && Lookup(g.rules, k) ensures Ready(g.cat.models, k) {
        var c :| c in cs && c.key == k;
        var i :| 0 <= i < |cs| && cs[i] == c;
        assert ChangeOk(models, prev[i]);
      }
    }
    if MayReturn(g, KeysOf(cs)) {
      forall i | 0 <= i < |cs| ensures ChangeOk(models, prev[i]) {
        assert cs[i] in cs && cs[i].key in KeysOf(cs);
      }
    }
  }

  /** What one undo makes of a state that was rewound up to its application. */
  lemma RewindGates(g: Gov, cs: seq<Change>, g1: Gov, t: Gov, u: Gov, later: set<string>)
    requires Valid(g.cat.models, cs) && g1.cat == SetAllows(g.cat, cs) && g1.rules == SetRules(g.rules, cs)
    requires Rewound(g1, t, later) && Valid(t.cat.models, Previous(g.rules, cs))
    requires u.rules == SetRules(t.rules, Previous(g.rules, cs)) && u.cat == SetAllows(t.cat, Previous(g.rules, cs))
    ensures SameFleet(g.cat.models, u.cat.models) && u.cat.admitted == g.cat.admitted && u.cat.last == g.cat.last
    ensures forall k :: Lookup(u.rules, k) == Lookup(g.rules, k)
    ensures forall k :: Lookup(u.cat.allow, k) ==
                        if k in KeysOf(cs) + later then Lookup(g.rules, k) else Lookup(g.cat.allow, k)
  {
    var prev := Previous(g.rules, cs);
    forall k
      ensures Lookup(u.rules, k) == Lookup(g.rules, k)
      ensures Lookup(u.cat.allow, k) ==
              if k in KeysOf(cs) + later then Lookup(g.rules, k) else Lookup(g.cat.allow, k)
    {
      RulesAfter(t.rules, prev, k);
      RulesAfter(g.rules, cs, k);
      GateAfter(g.cat, cs, k);
      GateAfter(t.cat, prev, k);
      DecidedByPrevious(g.rules, cs, k, Lookup(t.rules, k));
      DecidedByPrevious(g.rules, cs, k, Lookup(t.cat.allow, k));
      DecidedIs(cs, k, Lookup(g.rules, k));
      DecidedIs(cs, k, Lookup(g.cat.allow, k));
    }
    GateAfter(g.cat, cs, "");
    GateAfter(t.cat, prev, "");
    SameFleetTransitive(g.cat.models, g1.cat.models, t.cat.models);
    SameFleetTransitive(g.cat.models, t.cat.models, u.cat.models);
  }

  lemma RewindFlag(g: Gov, cs: seq<Change>, g1: Gov, t: Gov, later: set<string>, i: nat)
    requires Valid(g.cat.models, cs) && g1.cat == SetAllows(g.cat, cs) && g1.rules == SetRules(g.rules, cs)
    requires Rewound(g1, t, later) && Valid(t.cat.models, Previous(g.rules, cs))
    requires SlashFreeModels(g.cat.models) && i < |g.cat.models|
    ensures
      var after := SetAllows(t.cat, Previous(g.rules, cs)).models;
      i < |after| && after[i].autoRoutable == FlagRewound(g, KeysOf(cs) + later, i)
  {
    var key := KeyOf(g.cat.models[i]);
    GateAfter(g.cat, cs, key);
    RoutingAfter(g.cat, cs, i);
    SameOwner(g.cat.models, g1.cat.models, i);
    SameOwner(g1.cat.models, t.cat.models, i);
    RoutingAfter(t.cat, Previous(g.rules, cs), i);
    DecidedByPrevious(g.rules, cs, key, false);
    RulesAfter(g.rules, cs, key);
    DecidedIs(cs, key, Lookup(g.rules, key));
  }

  function Touched(css: seq<seq<Change>>): set<string> {
    if css == [] then {} else KeysOf(css[0]) + Touched(css[1..])
  }

  function ApplyAll(g: Gov, css: seq<seq<Change>>, revs: seq<string>): Option<Gov>
    requires |css| == |revs|
    decreases |css|
  {
    if css == [] then Some(g)
    else
      var (next, ok) := ApplyStep(g, css[0], revs[0]);
      if ok then ApplyAll(next, css[1..], revs[1..]) else None
  }

  /** Undoes the later revisions first. */
  function UndoAll(g: Gov, revs: seq<string>, stamps: seq<string>): Option<Gov>
    requires |revs| == |stamps|
    decreases |revs|
  {
    if revs == [] then Some(g)
    else
      match UndoAll(g, revs[1..], stamps[1..])
      case None => None
      case Some(t) => var (u, ok) := UndoStep(t, revs[0], stamps[0]); if ok then Some(u) else None
  }

  predicate DistinctRevisions(revs: seq<string>) {
    (forall i :: 0 <= i < |revs| ==> revs[i] != "")
    && forall i, j :: 0 <= i < j < |revs| ==> revs[i] != revs[j]
  }

  /** `late` continues `early`, with applications of the given revisions only. */
  predicate Continues(early: seq<Audit>, late: seq<Audit>, revs: seq<string>) {
    |early| <= |late| && late[..|early|] == early
    && forall j :: |early| <= j < |late| && late[j].action == Apply ==> late[j].revision in revs
  }

  lemma {:induction false} FoundBehind(audits: seq<Audit>, n: nat, r: string)
    requires n <= |audits|
    requires forall j :: n <= j < |audits| && audits[j].action == Apply ==> audits[j].revision != r
    ensures FindApply(audits, r) == FindApply(audits[..n], r)
  {
    if n == |audits| {
      assert audits[..n] == audits;
    } else {
      FoundBehind(audits[..|audits| - 1], n, r);
      assert audits[..|audits| - 1][..n] == audits[..n];
    }
  }

  lemma SameFleetSlashFree(a: seq<Model>, b: seq<Model>)
    requires SameFleet(a, b) && SlashFreeModels(a)
    ensures SlashFreeModels(b)
  {
  }

  lemma AppliedSlashFree(g: Gov, cs: seq<Change>, rev: string)
    requires ApplyStep(g, cs, rev).1 && SlashFreeModels(g.cat.models)
    ensures SlashFreeModels(ApplyStep(g, cs, rev).0.cat.models)
  {
    GateAfter(g.cat, cs, "");
    SameFleetSlashFree(g.cat.models, SetAllows(g.cat, cs).models);
  }

  lemma FoundAgain(early: seq<Audit>, own: Audit, late: seq<Audit>, revs: seq<string>)
    requires own.action == Apply && own.revision !in revs && Continues(early + [own], late, revs)
    ensures FindApply(late, own.revision) == Some(own.previous)
    ensures Continues(early, late, [own.revision] + revs)
  {
    var n := |early| + 1;
    FoundBehind(late, n, own.revision);
    assert late[..n] == early + [own];
    assert late[..|early|] == late[..n][..|early|] == early;
    forall j | |early| <= j < |late| && late[j].action == Apply ensures late[j].revision in [own.revision] + revs {
      if j == |early| {
        assert late[j] == late[..n][j] == own;
      }
    }
  }

  lemma ContinuesOne(early: seq<Audit>, late: seq<Audit>, revs: seq<string>, a: Audit)
    requires Continues(early, late, revs) && a.action == Undo
    ensures Continues(early, late + [a], revs)
  {
    assert (late + [a])[..|early|] == late[..|early|];
  }

  lemma UndoOne(g: Gov, cs: seq<Change>, rev: string, g1: Gov, t: Gov, revs: seq<string>, later: set<string>,
                stamp: string)
    requires ApplyStep(g, cs, rev) == (g1, true) && SlashFreeModels(g.cat.models)
    requires Rewound(g1, t, later) && Continues(g1.audits, t.audits, revs) && rev !in revs && rev != ""
    ensures
      var (u, ok) := UndoStep(t, rev, stamp);
      && (ok <==> MayReturn(g, KeysOf(cs)))
      && (ok ==> Rewound(g, u, KeysOf(cs) + later) && Continues(g.audits, u.audits, [rev] + revs))
  {
    FoundAgain(g.audits, Audit(rev, Apply, cs, Previous(g.rules, cs)), t.audits, revs);
    GateAfter(g.cat, cs, "");
    SameFleetTransitive(g.cat.models, g1.cat.models, t.cat.models);
    PreviousValidIff(g, cs, t.cat.models);
    var (u, ok) := UndoStep(t, rev, stamp);
    if ok {
      RewindGates(g, cs, g1, t, u, later);
      forall i | 0 <= i < |u.cat.models|
        ensures u.cat.models[i].autoRoutable == FlagRewound(g, KeysOf(cs) + later, i)
      {
        RewindFlag(g, cs, g1, t, later, i);
      }
      ContinuesOne(g.audits, t.audits, [rev] + revs, Audit(stamp, Undo, Previous(g.rules, cs), []));
    }
  }

  /** A key may return to its first value if and only if it may after one application. */
  lemma MayReturnSplits(g: Gov, cs: seq<Change>, g1: Gov, later: set<string>)
    requires Valid(g.cat.models, cs) && g1.cat == SetAllows(g.cat, cs) && g1.rules == SetRules(g.rules, cs)
    ensures MayReturn(g, KeysOf(cs) + later) <==> MayReturn(g, KeysOf(cs)) && MayReturn(g1, later)
  {
    GateAfter(g.cat, cs, "");
    forall k | k in later
      ensures k !in KeysOf(cs) ==> Lookup(g1.rules, k) == Lookup(g.rules, k)
      ensures Ready(g1.cat.models, k) <==> Ready(g.cat.models, k)
      ensures k in KeysOf(cs) && Lookup(g1.rules, k) ==> Ready(g.cat.models, k)
    {
      RulesAfter(g.rules, cs, k);
      DecidedIs(cs, k, Lookup(g.rules, k));
      SameNamed(g.cat.models, g1.cat.models, k);
      if k in KeysOf(cs) && Lookup(g1.rules, k) {
        DecidedOnIsReady(g.cat.models, cs, k);
      }
    }
  }

  lemma {:induction false} DecidedOnIsReady(models: seq<Model>, cs: seq<Change>, k: string)
    requires AllChangesOk(models, cs) && k in KeysOf(cs) && Decided(cs, k, false)
    ensures Ready(models, k)
  {
    assert cs == [cs[0]] + cs[1..];
    DecidedIs(cs[1..], k, if cs[0].key == k then cs[0].on else false);
    if k in KeysOf(cs[1..]) {
      DecidedOnIsReady(models, cs[1..], k);
    } else {
      assert ChangeOk(models, cs[0]);
    }
  }

  lemma FirstRevision(revs: seq<string>)
    requires revs != [] && DistinctRevisions(revs)
    ensures revs == [revs[0]] + revs[1..] && DistinctRevisions(revs[1..]) && revs[0] !in revs[1..] && revs[0] != ""
  {
  }

  ghost predicate BackFrom(g: Gov, keys: set<string>, revs: seq<string>, back: Option<Gov>) {
    && (back.Some? <==> MayReturn(g, keys))
    && (back.Some? ==> Rewound(g, back.value, keys) && Continues(g.audits, back.value.audits, revs))
  }

  lemma UndoLast(g: Gov, cs: seq<Change>, rev: string, g1: Gov, between: Option<Gov>, revs: seq<string>,
                 later: set<string>, stamp: string)
    requires ApplyStep(g, cs, rev) == (g1, true) && SlashFreeModels(g.cat.models) && rev !in revs && rev != ""
    requires BackFrom(g1, later, revs, between)
    ensures
      BackFrom(g, KeysOf(cs) + later, [rev] + revs,
               match between case None => None
               case Some(t) => var (u, ok) := UndoStep(t, rev, stamp); if ok then Some(u) else None)
  {
    MayReturnSplits(g, cs, g1, later);
    if between.Some? {
      UndoOne(g, cs, rev, g1, between.value, revs, later, stamp);
    }
  }

  /** Any stack of rule changes, undone in reverse order: every undo goes through if and only
      if every key that was approved at the start and was changed is still ready for approval
      (which later approvals cannot spoil), and then the rules are back where they were, the
      allow gates and the routing flags of the changed keys say what the rules say, and all
      others are untouched. */
  lemma {:induction false} UndoStack(g: Gov, css: seq<seq<Change>>, revs: seq<string>, stamps: seq<string>, top: Gov)
    requires |css| == |revs| == |stamps| && DistinctRevisions(revs) && SlashFreeModels(g.cat.models)
    requires ApplyAll(g, css, revs) == Some(top)
    ensures BackFrom(g, Touched(css), revs, UndoAll(top, revs, stamps))
    decreases |css|
  {
    if css != [] {
      var g1 := ApplyStep(g, css[0], revs[0]).0;
      AppliedSlashFree(g, css[0], revs[0]);
      FirstRevision(revs);
      UndoStack(g1, css[1..], revs[1..], stamps[1..], top);
      UndoLast(g, css[0], revs[0], g1, UndoAll(top, revs[1..], stamps[1..]), revs[1..], Touched(css[1..]), stamps[0]);
    }
  }

  ghost predicate AgreeOn(g: Gov, keys: set<string>) {
    forall k :: k in keys ==> Lookup(g.rules, k) == Lookup(g.cat.allow, k)
  }

  ghost predicate SameTables(g: Gov, t: Gov) {
    forall k :: Lookup(t.rules, k) == Lookup(g.rules, k) && Lookup(t.cat.allow, k) == Lookup(g.cat.allow, k)
  }

  /** Undoing the stack brings back both tables if and only if, on the changed keys, rules and
      gates agreed at the start and every approval was of a model that is ready. */
  lemma UndoRestoresTablesIff(g: Gov, css: seq<seq<Change>>, revs: seq<string>, stamps: seq<string>, top: Gov)
    requires |css| == |revs| == |stamps| && DistinctRevisions(revs) && SlashFreeModels(g.cat.models)
    requires ApplyAll(g, css, revs) == Some(top)
    ensures
      var back := UndoAll(top, revs, stamps);
      back.Some? && SameTables(g, back.value) <==> MayReturn(g, Touched(css)) && AgreeOn(g, Touched(css))
  {
    UndoStack(g, css, revs, stamps, top);
  }

  // ---------------------------------------------------------------- in plain values

  /** A change of a list that passes: its key is provider, slash, model, neither part empty, of an
      entry of the catalog, and an approval is of a first entry that is ready for it. */
  predicate Passes(models: seq<Model>, p: string, id: string, on: bool) {
    && p != "" && id != ""
    && exists i :: 0 <= i < |models| && CatalogEntries.IsEntry(models[i], p, id)
                   && (forall j :: 0 <= j < i ==> !CatalogEntries.IsEntry(models[j], p, id))
                   && (on ==> CatalogEntries.ReadyEntry(models[i]))
  }

  lemma PassesIff(models: seq<Model>, p: string, id: string, on: bool)
    requires SlashFree(p)
    ensures ChangeOk(models, Change(p + "/" + id, on)) <==> Passes(models, p, id, on)
    ensures Takes(models, p + "/" + id, on) <==>
      exists i :: 0 <= i < |models| && CatalogEntries.IsEntry(models[i], p, id)
                  && (forall j :: 0 <= j < i ==> !CatalogEntries.IsEntry(models[j], p, id))
                  && (on ==> CatalogEntries.ReadyEntry(models[i]))
  {
    SplitRouteKey(p, id);
    assert RouteKey(p, id) == p + "/" + id;
    var n := IndexOf(models, p, id);
    if n < |models| {
      CatalogEntries.ReadyIff(models[n]);
      assert CatalogEntries.IsEntry(models[n], p, id);
    }
    if i :| 0 <= i < |models| && CatalogEntries.IsEntry(models[i], p, id)
            && forall j :: 0 <= j < i ==> !CatalogEntries.IsEntry(models[j], p, id) {
      CatalogEntries.FirstIs(models, p, id, i);
    }
  }

  lemma KeyWithoutSlash(models: seq<Model>, k: string, on: bool)
    requires SlashFree(k)
    ensures !ChangeOk(models, Change(k, on)) && !Takes(models, k, on)
  {
  }

  /** A list passes when it has one to a hundred changes, none of a key twice, each of which
      passes by itself. */
  lemma ListPassesIff(models: seq<Model>, cs: seq<Change>)
    ensures Valid(models, cs) <==>
      && |cs| > 0 && |cs| < 101 && (forall i, j :: 0 <= i < j < |cs| ==> cs[i].key != cs[j].key)
      && forall i :: 0 <= i < |cs| ==> ChangeOk(models, cs[i])
  {
  }

  /** The rule of a key is what the last change of the key says. */
  lemma LastChangeRules(rules: map<string, bool>, cs: seq<Change>, c: Change, k: string)
    ensures Lookup(SetRules(rules, cs + [c]), k) == if c.key == k then c.on else Lookup(SetRules(rules, cs), k)
    ensures SetRules(rules, []) == rules
  {
    RulesConcat(rules, cs, c);
  }

  lemma {:induction false} RulesConcat(rules: map<string, bool>, cs: seq<Change>, c: Change)
    ensures SetRules(rules, cs + [c]) == SetRules(rules, cs)[c.key := c.on]
    decreases |cs|
  {
    if cs == [] {
      assert [] + [c] == [c] && [c][1..] == [];
      assert SetRules(rules[c.key := c.on], []) == rules[c.key := c.on];
    } else {
      assert (cs + [c])[1..] == cs[1..] + [c];
      RulesConcat(rules[cs[0].key := cs[0].on], cs[1..], c);
    }
  }

  /** An application notes its changes and the rules from before, an undo only its changes; a
      refused one notes nothing. */
  lemma AuditWrites(g: Gov, cs: seq<Change>, revision: string, stamp: string)
    ensures
      var (t, ok) := ApplyStep(g, cs, revision);
      if ok then |t.audits| == |g.audits| + 1 && t.audits[..|g.audits|] == g.audits
                 && (var a := t.audits[|g.audits|];
                     a.revision == revision && a.action == Apply && a.changes == cs && |a.previous| == |cs|
                     && forall i :: 0 <= i < |cs| ==> a.previous[i].key == cs[i].key
                                                      && a.previous[i].on == Lookup(g.rules, cs[i].key))
      else t == g
    ensures
      var (t, ok) := UndoStep(g, revision, stamp);
      if ok then |t.audits| == |g.audits| + 1 && t.audits[..|g.audits|] == g.audits && revision != ""
                 && (var a := t.audits[|g.audits|];
                     a.revision == stamp && a.action == Undo && a.previous == []
                     && FindApply(g.audits, revision) == Some(a.changes))
      else t == g
  {
  }

  /** An undo looks for the latest application under its revision. */
  lemma LatestApplication(audits: seq<Audit>, a: Audit, revision: string)
    ensures FindApply(audits + [a], revision) ==
            if a.revision == revision && a.action == Apply then Some(a.previous) else FindApply(audits, revision)
    ensures FindApply([], revision) == None
  {
    assert (audits + [a])[..|audits|] == audits;
  }
}
