/** What every run of the catalog keeps: nothing is routable without both gates, and a
    revoked admission stays revoked. */
module CatalogRuns {
  import opened Keys
  import opened CatalogModel
  import opened Catalog
  import Ranking

  // ---------------------------------------------------------------- the invariant

  /** A key that can belong to a catalog entry: slash-free provider, trimmed identifier. */
  predicate EntryKey(k: string) { SplitKey(k).Some? && TrimmedId(SplitKey(k).value.1) }

  predicate ModelOk(m: Model, allow: map<string, bool>, admitted: map<string, bool>) {
    SlashFree(m.provider) && TrimmedId(m.id) && !IsMeta(m.id)
    && (m.orphaned ==> m.status == Stale)
    && (m.autoRoutable ==> m.status == Active && m.admitted)
    && (if IsAutoApprovedProvider(m.provider) then m.admitted
        else (m.admitted ==> Lookup(admitted, KeyOf(m))) && (m.autoRoutable ==> Lookup(allow, KeyOf(m))))
  }

  predicate AllOk(models: seq<Model>, allow: map<string, bool>, admitted: map<string, bool>) {
    forall i :: 0 <= i < |models| ==> ModelOk(models[i], allow, admitted)
  }

  ghost predicate EntryKeys(gate: map<string, bool>) { forall k :: Lookup(gate, k) ==> EntryKey(k) }

  ghost predicate Good(cat: Cat) {
    AllOk(cat.models, cat.allow, cat.admitted)
    && Ranking.DistinctRoutes(cat.models)
    && EntryKeys(cat.allow) && EntryKeys(cat.admitted)
  }

  lemma EntryKeyOf(p: string, id: string)
    requires SlashFree(p) && TrimmedId(id)
    ensures EntryKey(RouteKey(p, id))
  {
    SplitRouteKey(p, id);
  }

  lemma EntryKeyTrims(p: string, id: string)
    requires SlashFree(p) && EntryKey(RouteKey(p, id))
    ensures TrimmedId(id)
  {
    SplitRouteKey(p, id);
  }

  // ---------------------------------------------------------------- operations

  /** One section of the manager each.  A sync brings the gate snapshots it took before, and a
      consent switch the decision it took on a snapshot of the entry. */
  datatype Op =
    | OnSync(p: string, raw: seq<RawModel>, now: Time, allow: map<string, bool>, admitted: map<string, bool>)
    | OnAdmit(p: string, id: string, on: bool)
    | OnAllow(p: string, id: string, on: bool)
    | OnReconcile(online: set<string>)
    | OnMigrate
    | OnProbe(p: string, id: string, results: map<string, Evidence>, structured: bool, tools: bool, vision: bool)
    | OnReviewerRestore(p: string, id: string)
    | OnSwitch(id: string, on: bool)

  function Apply(cat: Cat, op: Op): Cat {
    match op
    case OnSync(p, raw, now, allow, admitted) => SyncWith(cat, p, raw, now, allow, admitted).0
    case OnAdmit(p, id, on) => SetAdmitted(cat, p, id, on)
    case OnAllow(p, id, on) => SetAllow(cat, p, id, on).0
    case OnReconcile(online) => Reconcile(cat, online)
    case OnMigrate => Migrate(cat)
    case OnProbe(p, id, results, structured, tools, vision) =>
      Update(cat, p, id, m => Probed(m, results, structured, tools, vision))
    case OnReviewerRestore(p, id) => Update(cat, p, id, m => ReviewerRestored(m))
    case OnSwitch(id, on) => SwitchOne(cat, id, on)
  }

  function Run(cat: Cat, ops: seq<Op>): Cat
    decreases |ops|
  {
    if ops == [] then cat else Run(Apply(cat, ops[0]), ops[1..])
  }

  /** The usable identifiers of a raw list stay distinct after trimming. */
  predicate DistinctIds(raw: seq<RawModel>) {
    var us := UsableOf(raw);
    forall i, j :: 0 <= i < j < |us| ==> TrimSpace(us[i].id) != TrimSpace(us[j].id)
  }

  /** What callers bring along: provider identifiers without a slash, and admissions of catalog
      identifiers. */
  predicate Addressed(op: Op) {
    match op
    case OnSync(p, _, _, _, _) => SlashFree(p)
    case OnAdmit(p, id, _) => SlashFree(p) && TrimmedId(id)
    case _ => true
  }

  /** The snapshots are not too old: an accepted sync names no model twice and none whose gate
      was open then and is closed now; a model that is switched on is still active. */
  predicate Timely(cat: Cat, op: Op) {
    match op
    case OnSync(p, raw, now, allow, admitted) =>
      SyncWith(cat, p, raw, now, allow, admitted).1
      || (DistinctIds(raw) && NoGateMoved(p, raw, cat, allow, admitted))
    case OnSwitch(id, on) =>
      var i := IndexOf(cat.models, FREE_PROVIDER, id);
      on && i < |cat.models| ==> cat.models[i].status == Active
    case _ => true
  }

  predicate Proper(cat: Cat, op: Op) { Addressed(op) && Timely(cat, op) }

  predicate ProperRun(cat: Cat, ops: seq<Op>)
    decreases |ops|
  {
    ops == [] || (Proper(cat, ops[0]) && ProperRun(Apply(cat, ops[0]), ops[1..]))
  }

  // ---------------------------------------------------------------- sync and the gates

  /** `raw` lists a model that the snapshots open but the present gates do not. */
  predicate GateMoved(p: string, x: RawModel, cat: Cat, allow: map<string, bool>, admitted: map<string, bool>) {
    !IsAutoApprovedProvider(p) && Usable(x)
    && var key := RouteKey(p, TrimSpace(x.id));
       (Lookup(admitted, RawKey(p, x)) && !Lookup(cat.admitted, key))
       || (Lookup(admitted, RawKey(p, x)) && Lookup(allow, RawKey(p, x)) && !Lookup(cat.allow, key))
  }

  predicate NoGateMoved(p: string, raw: seq<RawModel>, cat: Cat, allow: map<string, bool>, admitted: map<string, bool>) {
    forall x :: x in raw ==> !GateMoved(p, x, cat, allow, admitted)
  }

  lemma FromRawOk(p: string, x: RawModel, cat: Cat, allow: map<string, bool>, admitted: map<string, bool>, prev: Option<Model>)
    requires SlashFree(p) && Usable(x)
    ensures
      var m := Carry(FromRaw(p, x, allow, admitted), prev);
      KeyOf(m) == RouteKey(p, TrimSpace(x.id)) && m.provider == p
      && (ModelOk(m, cat.allow, cat.admitted) <==> !GateMoved(p, x, cat, allow, admitted))
  {
  }

  /** With the gates as they are, the untrimmed lookup key opens nothing it should not. */
  lemma GatesAgreeWithThemselves(p: string, x: RawModel, cat: Cat)
    requires SlashFree(p) && EntryKeys(cat.allow) && EntryKeys(cat.admitted)
    ensures !GateMoved(p, x, cat, cat.allow, cat.admitted)
  {
    if Lookup(cat.admitted, RawKey(p, x)) {
      EntryKeyTrims(p, x.id);
    }
  }

  lemma {:induction false} OthersMembers(models: seq<Model>, p: string)
    ensures forall m :: m in Others(models, p) <==> m in models && m.provider != p
  {
    if models != [] {
      OthersMembers(models[..|models| - 1], p);
      assert models == models[..|models| - 1] + [models[|models| - 1]];
    }
  }

  lemma {:induction false} OthersSubsequence(models: seq<Model>, p: string)
    ensures Ranking.DistinctRoutes(models) ==> Ranking.DistinctRoutes(Others(models, p))
  {
    if models != [] {
      var n := |models| - 1;
      OthersSubsequence(models[..n], p);
      if Ranking.DistinctRoutes(models) {
        assert Ranking.DistinctRoutes(models[..n]);
        var others := Others(models[..n], p);
        OthersMembers(models[..n], p);
        forall i | 0 <= i < |others| ensures KeyOf(others[i]) != KeyOf(models[n]) {
          assert others[i] in models[..n];
        }
      }
    }
  }

  lemma {:induction false} UsableMembers(raw: seq<RawModel>)
    ensures forall x :: x in UsableOf(raw) <==> x in raw && Usable(x)
  {
    if raw != [] {
      UsableMembers(raw[..|raw| - 1]);
      assert raw == raw[..|raw| - 1] + [raw[|raw| - 1]];
    }
  }

  /** The new list of a sync, as it is filed. */
  function NextList(cat: Cat, p: string, raw: seq<RawModel>, allow: map<string, bool>, admitted: map<string, bool>): seq<Model> {
    Carried(cat.models, p, Listed(p, raw, allow, admitted))
  }

  lemma NextListDistinct(cat: Cat, p: string, raw: seq<RawModel>, allow: map<string, bool>, admitted: map<string, bool>)
    requires SlashFree(p)
    ensures Ranking.DistinctRoutes(NextList(cat, p, raw, allow, admitted)) <==> DistinctIds(raw)
  {
    var us, next := UsableOf(raw), NextList(cat, p, raw, allow, admitted);
    forall i, j | 0 <= i < j < |us|
      ensures KeyOf(next[i]) == KeyOf(next[j]) <==> TrimSpace(us[i].id) == TrimSpace(us[j].id)
    {
      if KeyOf(next[i]) == KeyOf(next[j]) {
        RouteKeyInjective(p, next[i].id, p, next[j].id);
      }
    }
  }

  lemma NextListOk(cat: Cat, p: string, raw: seq<RawModel>, allow: map<string, bool>, admitted: map<string, bool>)
    requires SlashFree(p)
    ensures AllOk(NextList(cat, p, raw, allow, admitted), cat.allow, cat.admitted) <==>
            NoGateMoved(p, raw, cat, allow, admitted)
    ensures forall i :: 0 <= i < |NextList(cat, p, raw, allow, admitted)| ==>
      NextList(cat, p, raw, allow, admitted)[i].provider == p
  {
    var us, next := UsableOf(raw), NextList(cat, p, raw, allow, admitted);
    UsableMembers(raw);
    forall i | 0 <= i < |us|
      ensures ModelOk(next[i], cat.allow, cat.admitted) <==> !GateMoved(p, us[i], cat, allow, admitted)
    {
      assert us[i] in us;
      FromRawOk(p, us[i], cat, allow, admitted, LastWith(cat.models, p, TrimSpace(us[i].id)));
    }
    if AllOk(next, cat.allow, cat.admitted) {
      forall x | x in raw ensures !GateMoved(p, x, cat, allow, admitted) {
        if Usable(x) {
          var i :| 0 <= i < |us| && us[i] == x;
        }
      }
    }
  }

  lemma ConcatDistinct(a: seq<Model>, b: seq<Model>, p: string)
    requires SlashFree(p) && forall m :: m in a ==> m.provider != p && SlashFree(m.provider)
    requires forall m :: m in b ==> m.provider == p
    requires Ranking.DistinctRoutes(a)
    ensures Ranking.DistinctRoutes(a + b) <==> Ranking.DistinctRoutes(b)
  {
    var c := a + b;
    forall i, j | 0 <= i < |a| <= j < |c| ensures KeyOf(c[i]) != KeyOf(c[j]) {
      assert c[i] in a && c[j] in b;
      if KeyOf(c[i]) == KeyOf(c[j]) {
        RouteKeyInjective(c[i].provider, c[i].id, c[j].provider, c[j].id);
      }
    }
    assert forall i :: 0 <= i < |b| ==> c[|a| + i] == b[i];
  }

  lemma ConcatOk(a: seq<Model>, b: seq<Model>, allow: map<string, bool>, admitted: map<string, bool>)
    ensures AllOk(a + b, allow, admitted) <==> AllOk(a, allow, admitted) && AllOk(b, allow, admitted)
  {
    var c := a + b;
    assert forall i :: 0 <= i < |a| ==> c[i] == a[i];
    assert forall i :: 0 <= i < |b| ==> c[|a| + i] == b[i];
  }

  /** A sync that took its gate snapshots earlier keeps the invariant if and only if the
      drop guard stops it, or the list names no model twice and names no model whose gate
      was open in the snapshots and is closed now. */
  lemma SyncKeepsGatesIff(cat: Cat, p: string, raw: seq<RawModel>, now: Time,
                          allow: map<string, bool>, admitted: map<string, bool>)
    requires Good(cat) && SlashFree(p)
    ensures
      var (after, rejected) := SyncWith(cat, p, raw, now, allow, admitted);
      Good(after) <==> rejected || (DistinctIds(raw) && NoGateMoved(p, raw, cat, allow, admitted))
  {
    AcceptedGood(cat, p, raw, allow, admitted, cat.last[p := now]);
  }

  lemma AcceptedGood(cat: Cat, p: string, raw: seq<RawModel>, allow: map<string, bool>, admitted: map<string, bool>,
                     last: map<string, Time>)
    requires Good(cat) && SlashFree(p)
    ensures Good(Cat(Others(cat.models, p) + NextList(cat, p, raw, allow, admitted), cat.allow, cat.admitted, last)) <==>
            DistinctIds(raw) && NoGateMoved(p, raw, cat, allow, admitted)
  {
    NextListDistinct(cat, p, raw, allow, admitted);
    NextListOk(cat, p, raw, allow, admitted);
    FiledGood(cat, p, NextList(cat, p, raw, allow, admitted), last,
              DistinctIds(raw), NoGateMoved(p, raw, cat, allow, admitted));
  }

  lemma FiledGood(cat: Cat, p: string, next: seq<Model>, last: map<string, Time>, distinct: bool, ok: bool)
    requires Good(cat) && SlashFree(p) && forall i :: 0 <= i < |next| ==> next[i].provider == p
    requires distinct <==> Ranking.DistinctRoutes(next)
    requires ok <==> AllOk(next, cat.allow, cat.admitted)
    ensures Good(Cat(Others(cat.models, p) + next, cat.allow, cat.admitted, last)) <==> distinct && ok
  {
    var keep := Others(cat.models, p);
    OthersOk(cat, p);
    ConcatDistinct(keep, next, p);
    ConcatOk(keep, next, cat.allow, cat.admitted);
  }

  lemma OthersOk(cat: Cat, p: string)
    requires Good(cat)
    ensures
      var keep := Others(cat.models, p);
      AllOk(keep, cat.allow, cat.admitted) && Ranking.DistinctRoutes(keep)
      && forall m :: m in keep ==> m.provider != p && SlashFree(m.provider)
  {
    OthersMembers(cat.models, p);
    forall m | m in Others(cat.models, p) ensures ModelOk(m, cat.allow, cat.admitted) {
      var i :| 0 <= i < |cat.models| && cat.models[i] == m;
    }
    OthersSubsequence(cat.models, p);
  }

  // ---------------------------------------------------------------- every operation keeps the gates

  lemma AdmitKeepsGood(cat: Cat, p: string, id: string, on: bool)
    requires Good(cat) && SlashFree(p) && TrimmedId(id)
    ensures Good(SetAdmitted(cat, p, id, on))
  {
    var after := SetAdmitted(cat, p, id, on);
    EntryKeyOf(p, id);
    forall i | 0 <= i < |cat.models|
      ensures ModelOk(after.models[i], after.allow, after.admitted) && KeyOf(after.models[i]) == KeyOf(cat.models[i])
    {
      var m := cat.models[i];
      assert ModelOk(m, cat.allow, cat.admitted);
      if KeyOf(m) == RouteKey(p, id) {
        RouteKeyInjective(m.provider, m.id, p, id);
      }
    }
  }

  lemma OtherKeyOk(m: Model, allow: map<string, bool>, admitted: map<string, bool>, key: string, on: bool)
    requires ModelOk(m, allow, admitted) && KeyOf(m) != key
    ensures ModelOk(m, allow[key := on], admitted)
  {
  }

  lemma AllowedOk(m: Model, allow: map<string, bool>, admitted: map<string, bool>, on: bool)
    requires ModelOk(m, allow, admitted) && (on ==> AutoApprovalReady(m))
    ensures ModelOk(m.(autoRoutable := on && m.status == Active), allow[KeyOf(m) := on], admitted)
  {
  }

  /** An approval or withdrawal on entry `i`. */
  lemma AllowedAt(cat: Cat, i: nat, on: bool)
    requires Good(cat) && i < |cat.models| && (on ==> AutoApprovalReady(cat.models[i]))
    ensures
      var m := cat.models[i];
      AllOk(cat.models[i := m.(autoRoutable := on && m.status == Active)], cat.allow[KeyOf(m) := on], cat.admitted)
  {
    var m := cat.models[i];
    AllowedOk(m, cat.allow, cat.admitted, on);
    forall j | 0 <= j < |cat.models| && j != i ensures ModelOk(cat.models[j], cat.allow[KeyOf(m) := on], cat.admitted) {
      assert ModelOk(cat.models[j], cat.allow, cat.admitted) && KeyOf(cat.models[j]) != KeyOf(m);
      OtherKeyOk(cat.models[j], cat.allow, cat.admitted, KeyOf(m), on);
    }
  }

  lemma SameRoutes(models: seq<Model>, i: nat, r: Model)
    requires i < |models| && Ranking.DistinctRoutes(models) && KeyOf(r) == KeyOf(models[i])
    ensures Ranking.DistinctRoutes(models[i := r])
  {
  }

  lemma AllowKeepsGood(cat: Cat, p: string, id: string, on: bool)
    requires Good(cat)
    ensures Good(SetAllow(cat, p, id, on).0)
  {
    var i := IndexOf(cat.models, p, id);
    var (after, ok) := SetAllow(cat, p, id, on);
    if ok {
      var m := cat.models[i];
      assert ModelOk(m, cat.allow, cat.admitted);
      EntryKeyOf(p, id);
      AllowedAt(cat, i, on);
      SameRoutes(cat.models, i, m.(autoRoutable := on && m.status == Active));
    }
  }

  /** An update of single models that keeps routes and gates. */
  lemma PointwiseKeepsGood(cat: Cat, models: seq<Model>)
    requires Good(cat) && |models| == |cat.models|
    requires forall i :: 0 <= i < |models| ==>
      KeyOf(models[i]) == KeyOf(cat.models[i]) && ModelOk(models[i], cat.allow, cat.admitted)
    ensures Good(cat.(models := models))
  {
  }

  lemma ReconcileOk(m: Model, online: set<string>, allow: map<string, bool>, admitted: map<string, bool>)
    requires ModelOk(m, allow, admitted)
    ensures ModelOk(ReconcileModel(m, online), allow, admitted) && KeyOf(ReconcileModel(m, online)) == KeyOf(m)
  {
  }

  lemma MigrateOk(m: Model, allow: map<string, bool>, admitted: map<string, bool>)
    requires ModelOk(m, allow, admitted)
    ensures ModelOk(MigrateModel(m, admitted), allow, admitted) && KeyOf(MigrateModel(m, admitted)) == KeyOf(m)
  {
  }

  /** A sync with nothing between its snapshots and its merge keeps the gates if and only if
      it is rejected or names no model twice. */
  lemma SyncNowKeepsGoodIff(cat: Cat, p: string, raw: seq<RawModel>, now: Time)
    requires Good(cat) && SlashFree(p)
    ensures
      var (after, rejected) := Sync(cat, p, raw, now);
      Good(after) <==> rejected || DistinctIds(raw)
  {
    forall x | x in raw ensures !GateMoved(p, x, cat, cat.allow, cat.admitted) {
      GatesAgreeWithThemselves(p, x, cat);
    }
    SyncKeepsGatesIff(cat, p, raw, now, cat.allow, cat.admitted);
  }

  lemma ReconcileKeepsGood(cat: Cat, online: set<string>)
    requires Good(cat)
    ensures Good(Reconcile(cat, online))
  {
    var models := Reconcile(cat, online).models;
    forall i | 0 <= i < |models|
      ensures KeyOf(models[i]) == KeyOf(cat.models[i]) && ModelOk(models[i], cat.allow, cat.admitted)
    {
      ReconcileOk(cat.models[i], online, cat.allow, cat.admitted);
    }
    PointwiseKeepsGood(cat, models);
  }

  lemma MigrateKeepsGood(cat: Cat)
    requires Good(cat)
    ensures Good(Migrate(cat))
  {
    var models := Migrate(cat).models;
    forall i | 0 <= i < |models|
      ensures KeyOf(models[i]) == KeyOf(cat.models[i]) && ModelOk(models[i], cat.allow, cat.admitted)
    {
      MigrateOk(cat.models[i], cat.allow, cat.admitted);
    }
    PointwiseKeepsGood(cat, models);
  }

  /** The fields the gates are about. */
  function GateFields(m: Model): (string, string, Status, bool, bool, bool) {
    (m.provider, m.id, m.status, m.admitted, m.autoRoutable, m.orphaned)
  }

  lemma UpdateKeepsGood(cat: Cat, p: string, id: string, f: Model -> Model)
    requires Good(cat) && forall m :: GateFields(f(m)) == GateFields(m)
    ensures Good(Update(cat, p, id, f))
  {
    var i := IndexOf(cat.models, p, id);
    if i < |cat.models| {
      var m := cat.models[i];
      assert GateFields(f(m)) == GateFields(m);
      assert ModelOk(m, cat.allow, cat.admitted);
      PointwiseKeepsGood(cat, cat.models[i := f(m)]);
    }
  }

  /** A switch with an old decision keeps the gates if and only if it does not turn on an entry
      that is no longer active. */
  lemma SwitchKeepsGoodIff(cat: Cat, id: string, on: bool)
    requires Good(cat)
    ensures Good(SwitchOne(cat, id, on)) <==> Timely(cat, OnSwitch(id, on))
  {
    var i := IndexOf(cat.models, FREE_PROVIDER, id);
    if i < |cat.models| {
      var m := cat.models[i];
      var r := m.(autoRoutable := on);
      var after := SwitchOne(cat, id, on);
      assert ModelOk(m, cat.allow, cat.admitted);
      assert after.models == cat.models[i := r];
      if on && m.status != Active {
        assert !ModelOk(after.models[i], after.allow, after.admitted);
      } else {
        PointwiseKeepsGood(cat, cat.models[i := r]);
      }
    }
  }

  /** A section keeps the two gates if and only if its snapshots are not too old. */
  lemma StepKeepsGoodIff(cat: Cat, op: Op)
    requires Good(cat) && Addressed(op)
    ensures Good(Apply(cat, op)) <==> Timely(cat, op)
  {
    match op
    case OnSync(p, raw, now, allow, admitted) => SyncKeepsGatesIff(cat, p, raw, now, allow, admitted);
    case OnAdmit(p, id, on) => AdmitKeepsGood(cat, p, id, on);
    case OnAllow(p, id, on) => AllowKeepsGood(cat, p, id, on);
    case OnReconcile(online) => ReconcileKeepsGood(cat, online);
    case OnMigrate => MigrateKeepsGood(cat);
    case OnProbe(p, id, results, structured, tools, vision) =>
      UpdateKeepsGood(cat, p, id, m => Probed(m, results, structured, tools, vision));
    case OnReviewerRestore(p, id) => UpdateKeepsGood(cat, p, id, m => ReviewerRestored(m));
    case OnSwitch(id, on) => SwitchKeepsGoodIff(cat, id, on);
  }

  lemma {:induction false} RunKeepsGood(cat: Cat, ops: seq<Op>)
    requires Good(cat) && ProperRun(cat, ops)
    ensures Good(Run(cat, ops))
    decreases |ops|
  {
    if ops != [] {
      StepKeepsGoodIff(cat, ops[0]);
      RunKeepsGood(Apply(cat, ops[0]), ops[1..]);
    }
  }

  /** Two gates, over every run from the empty catalog: a routable model is active, admitted,
      not a meta model and not orphaned; outside the FreeLLMAPI provider it is admitted in
      its entry and in the admission map, and allowed in the allow map. */
  lemma NothingRoutableWithoutBothGates(ops: seq<Op>, m: Model)
    requires ProperRun(EMPTY, ops)
    requires m in Run(EMPTY, ops).models && m.autoRoutable
    ensures BehindBothGates(Run(EMPTY, ops), m)
  {
    RunKeepsGood(EMPTY, ops);
    GoodIsGuarded(Run(EMPTY, ops), m);
  }

  predicate BehindBothGates(cat: Cat, m: Model) {
    && m.status == Active && m.admitted && !IsMeta(m.id) && !m.orphaned
    && (m.provider != FREE_PROVIDER ==> Lookup(cat.admitted, KeyOf(m)) && Lookup(cat.allow, KeyOf(m)))
    && Published(m)
  }

  lemma GoodIsGuarded(cat: Cat, m: Model)
    requires Good(cat) && m in cat.models && m.autoRoutable
    ensures BehindBothGates(cat, m)
  {
    var i :| 0 <= i < |cat.models| && cat.models[i] == m;
    assert ModelOk(cat.models[i], cat.allow, cat.admitted);
  }

  // ---------------------------------------------------------------- starting from a saved state

  /** What a saved state says about the admission of a key. */
  predicate FileAdmits(allow: map<string, bool>, admitted: Option<map<string, bool>>, k: string) {
    match admitted
    case Some(a) => Lookup(a, k)
    case None => Lookup(allow, k)
  }

  /** A saved entry that the migration can bring behind its gates.  It passes over a stale or
      orphaned one, which must be safe as it is. */
  predicate EntryStarts(m: Model, allow: map<string, bool>, admitted: Option<map<string, bool>>) {
    && SlashFree(m.provider) && TrimmedId(m.id) && !IsMeta(m.id)
    && (if m.status == Stale || m.orphaned then
          m.status == Stale && !m.autoRoutable && (IsAutoApprovedProvider(m.provider) ==> m.admitted)
        else IsAutoApprovedProvider(m.provider) && m.autoRoutable ==> m.status == Active || m.status == Unknown)
    && (!IsAutoApprovedProvider(m.provider) && m.admitted ==> FileAdmits(allow, admitted, KeyOf(m)))
  }

  /** A saved state that starts well. */
  ghost predicate FileOk(models: seq<Model>, allow: map<string, bool>, admitted: Option<map<string, bool>>) {
    && (forall i :: 0 <= i < |models| ==> EntryStarts(models[i], allow, admitted))
    && Ranking.DistinctRoutes(models)
    && EntryKeys(allow) && (admitted.Some? ==> EntryKeys(admitted.value))
  }

  lemma RestoredGates(models: seq<Model>, allow: map<string, bool>, admitted: Option<map<string, bool>>,
                      last: map<string, Time>)
    ensures
      var cat := Restored(models, allow, admitted, last);
      && (forall k :: Lookup(cat.admitted, k) <==> FileAdmits(allow, admitted, k))
      && (forall k :: Lookup(cat.allow, k) <==> admitted.Some? && Lookup(allow, k))
      && (EntryKeys(cat.allow) && EntryKeys(cat.admitted) <==>
            EntryKeys(allow) && (admitted.Some? ==> EntryKeys(admitted.value)))
  {
    var cat := Restored(models, allow, admitted, last);
    assert forall k :: Lookup(cat.admitted, k) <==> FileAdmits(allow, admitted, k);
    assert forall k :: Lookup(cat.allow, k) <==> admitted.Some? && Lookup(allow, k);
  }

  lemma SkippedMigrates(cat: Cat, m: Model)
    requires PassedOver(m)
    ensures MigrateModel(m, cat.admitted) == m
    ensures m.autoRoutable && !IsMeta(m.id) ==> !ModelOk(m, cat.allow, cat.admitted)
  {
  }

  lemma FreeMigrates(cat: Cat, m: Model)
    requires !PassedOver(m) && IsAutoApprovedProvider(m.provider)
    ensures ModelOk(MigrateModel(m, cat.admitted), cat.allow, cat.admitted) <==>
      SlashFree(m.provider) && TrimmedId(m.id) && (m.autoRoutable ==> m.status == Active || m.status == Unknown)
  {
    assert MigrateModel(m, cat.admitted) == Opened(m);
  }

  lemma OtherMigrates(cat: Cat, m: Model)
    requires !PassedOver(m) && !IsAutoApprovedProvider(m.provider)
    ensures ModelOk(MigrateModel(m, cat.admitted), cat.allow, cat.admitted) <==>
      SlashFree(m.provider) && TrimmedId(m.id) && (m.admitted ==> Lookup(cat.admitted, KeyOf(m)))
  {
    assert MigrateModel(m, cat.admitted) == OffRoutes(m, Lookup(cat.admitted, KeyOf(m)) || m.admitted);
  }

  lemma EntryMigrates(cat: Cat, m: Model, allow: map<string, bool>, admitted: Option<map<string, bool>>)
    requires Lookup(cat.admitted, KeyOf(m)) <==> FileAdmits(allow, admitted, KeyOf(m))
    ensures ModelOk(MigrateModel(m, cat.admitted), cat.allow, cat.admitted) <==> EntryStarts(m, allow, admitted)
  {
    if PassedOver(m) {
      SkippedMigrates(cat, m);
    } else if IsAutoApprovedProvider(m.provider) {
      FreeMigrates(cat, m);
    } else {
      OtherMigrates(cat, m);
    }
  }

  lemma SameKeyMigrated(m: Model, admitted: map<string, bool>)
    ensures KeyOf(MigrateModel(m, admitted)) == KeyOf(m)
  {
    if PassedOver(m) {
      assert MigrateModel(m, admitted) == m;
    }
  }

  /** A start from a saved state, with its migration, has the two gates if and only if the file
      is one that starts well. */
  lemma StartIsGoodIff(models: seq<Model>, allow: map<string, bool>, admitted: Option<map<string, bool>>,
                       last: map<string, Time>)
    ensures Good(Migrate(Restored(models, allow, admitted, last))) <==> FileOk(models, allow, admitted)
  {
    var cat := Restored(models, allow, admitted, last);
    var after := Migrate(cat);
    RestoredGates(models, allow, admitted, last);
    forall i | 0 <= i < |models|
      ensures ModelOk(after.models[i], after.allow, after.admitted) <==> EntryStarts(models[i], allow, admitted)
      ensures KeyOf(after.models[i]) == KeyOf(models[i])
    {
      EntryMigrates(cat, models[i], allow, admitted);
      SameKeyMigrated(models[i], cat.admitted);
    }
  }

  /** So what holds of runs from the empty catalog holds of runs from such a file. */
  lemma StartedIsGuarded(models: seq<Model>, allow: map<string, bool>, admitted: Option<map<string, bool>>,
                         last: map<string, Time>, ops: seq<Op>, m: Model)
    requires FileOk(models, allow, admitted)
    requires ProperRun(Migrate(Restored(models, allow, admitted, last)), ops)
    requires m in Run(Migrate(Restored(models, allow, admitted, last)), ops).models && m.autoRoutable
    ensures BehindBothGates(Run(Migrate(Restored(models, allow, admitted, last)), ops), m)
  {
    StartIsGoodIff(models, allow, admitted, last);
    RunKeepsGood(Migrate(Restored(models, allow, admitted, last)), ops);
    GoodIsGuarded(Run(Migrate(Restored(models, allow, admitted, last)), ops), m);
  }

  /** So whatever a request can be routed to is also in the published model list. */
  lemma RankedIsPublished(ops: seq<Op>, ctx: Ranking.Context, ranked: seq<Ranking.Candidate>, c: Ranking.Candidate)
    requires ProperRun(EMPTY, ops)
    requires Ranking.IsRanking(ctx, Run(EMPTY, ops).models, ranked) && c in ranked
    ensures exists m :: m in Run(EMPTY, ops).models && m.provider == c.provider && m.id == c.model && Published(m)
    ensures Ranking.DistinctCandidates(ranked)
  {
    var cat := Run(EMPTY, ops);
    RunKeepsGood(EMPTY, ops);
    Ranking.RankedIff(ctx, cat.models, ranked, c);
    var m :| m in cat.models && Ranking.Eligible(ctx, m) && c == Ranking.ToCandidate(ctx, m);
    NothingRoutableWithoutBothGates(ops, m);
    Ranking.RankedOnce(ctx, cat.models, ranked);
  }

  // ---------------------------------------------------------------- revocation is sticky

  predicate Routes(cat: Cat, p: string, id: string) {
    exists i :: 0 <= i < |cat.models| && cat.models[i].provider == p && cat.models[i].id == id && cat.models[i].autoRoutable
  }

  lemma AdmissionStaysClosed(cat: Cat, op: Op, p: string, id: string)
    requires Good(cat) && Addressed(op) && SlashFree(p) && !IsAutoApprovedProvider(p)
    requires !Lookup(cat.admitted, RouteKey(p, id)) && !Lookup(cat.allow, RouteKey(p, id))
    requires op != OnAdmit(p, id, true)
    ensures !Lookup(Apply(cat, op).admitted, RouteKey(p, id)) && !Lookup(Apply(cat, op).allow, RouteKey(p, id))
  {
    match op
    case OnAdmit(q, i, on) =>
      if RouteKey(q, i) == RouteKey(p, id) {
        RouteKeyInjective(q, i, p, id);
      }
    case OnAllow(q, i, on) =>
      var n := IndexOf(cat.models, q, i);
      if n < |cat.models| {
        assert ModelOk(cat.models[n], cat.allow, cat.admitted);
        if RouteKey(q, i) == RouteKey(p, id) {
          RouteKeyInjective(q, i, p, id);
        }
      }
    case _ =>
  }

  lemma AllowStaysClosed(cat: Cat, op: Op, p: string, id: string)
    requires Good(cat) && Addressed(op) && SlashFree(p)
    requires !Lookup(cat.allow, RouteKey(p, id)) && op != OnAllow(p, id, true)
    ensures !Lookup(Apply(cat, op).allow, RouteKey(p, id))
  {
    match op
    case OnAllow(q, i, on) =>
      var n := IndexOf(cat.models, q, i);
      if n < |cat.models| {
        assert ModelOk(cat.models[n], cat.allow, cat.admitted);
        if RouteKey(q, i) == RouteKey(p, id) {
          RouteKeyInjective(q, i, p, id);
        }
      }
    case _ =>
  }

  lemma ClosedIsNotRouted(cat: Cat, p: string, id: string)
    requires Good(cat) && !IsAutoApprovedProvider(p) && !Lookup(cat.allow, RouteKey(p, id))
    ensures !Routes(cat, p, id)
  {
  }

  lemma {:induction false} NeedsAllow(cat: Cat, ops: seq<Op>, p: string, id: string) returns (j: nat)
    requires Good(cat) && ProperRun(cat, ops)
    requires SlashFree(p) && !IsAutoApprovedProvider(p) && !Lookup(cat.allow, RouteKey(p, id))
    requires Routes(Run(cat, ops), p, id)
    ensures j < |ops| && ops[j] == OnAllow(p, id, true)
    decreases |ops|
  {
    if ops == [] {
      ClosedIsNotRouted(cat, p, id);
    } else if ops[0] == OnAllow(p, id, true) {
      j := 0;
    } else {
      StepKeepsGoodIff(cat, ops[0]);
      AllowStaysClosed(cat, ops[0], p, id);
      j := NeedsAllow(Apply(cat, ops[0]), ops[1..], p, id);
      j := j + 1;
    }
  }

  lemma FirstStep(cat: Cat, ops: seq<Op>)
    requires ops != [] && Good(cat) && ProperRun(cat, ops)
    ensures Good(Apply(cat, ops[0])) && ProperRun(Apply(cat, ops[0]), ops[1..]) && Addressed(ops[0])
  {
    StepKeepsGoodIff(cat, ops[0]);
  }

  /** Closed at both gates. */
  predicate Shut(cat: Cat, p: string, id: string) {
    !Lookup(cat.admitted, RouteKey(p, id)) && !Lookup(cat.allow, RouteKey(p, id))
  }

  /** Once a model outside FreeLLMAPI is closed at both gates, as `SetAdmitted(p, m, false)`
      leaves it, no run of syncs, probes, reconciliations, migrations and switches makes it
      routable without an admission followed by an approval. */
  lemma {:induction false} RevocationIsSticky(cat: Cat, ops: seq<Op>, p: string, id: string) returns (i: nat, j: nat)
    requires Good(cat) && ProperRun(cat, ops)
    requires SlashFree(p) && !IsAutoApprovedProvider(p) && Shut(cat, p, id)
    requires Routes(Run(cat, ops), p, id)
    ensures i < j < |ops| && ops[i] == OnAdmit(p, id, true) && ops[j] == OnAllow(p, id, true)
    decreases |ops|
  {
    if ops == [] {
      ClosedIsNotRouted(cat, p, id);
    } else {
      var next := Apply(cat, ops[0]);
      FirstStep(cat, ops);
      if ops[0] == OnAdmit(p, id, true) {
        j := NeedsAllow(next, ops[1..], p, id);
        i, j := 0, j + 1;
      } else {
        AdmissionStaysClosed(cat, ops[0], p, id);
        i, j := RevocationIsSticky(next, ops[1..], p, id);
        i, j := i + 1, j + 1;
      }
    }
  }

  /** The revocation itself closes both gates at once. */
  lemma RevocationCloses(cat: Cat, p: string, id: string)
    requires Good(cat) && SlashFree(p) && TrimmedId(id) && !IsAutoApprovedProvider(p)
    ensures
      var after := SetAdmitted(cat, p, id, false);
      Good(after) && !Lookup(after.admitted, RouteKey(p, id)) && !Lookup(after.allow, RouteKey(p, id))
      && !Routes(after, p, id)
  {
    AdmitKeepsGood(cat, p, id, false);
    ClosedIsNotRouted(SetAdmitted(cat, p, id, false), p, id);
  }

  // ---------------------------------------------------------------- and the gates do open

  predicate FullyProbed(m: Model) {
    forall c :: c in PROBED ==>
      c in m.evidence && m.evidence[c].source == "runtime_probe" && m.evidence[c].level == "protocol"
  }

  lemma AdmittedIsReady(m: Model, id: string)
    requires m.id == id && !IsMeta(id) && !IsAutoApprovedProvider(m.provider)
    requires (m.status == Unknown || m.status == Active) && FullyProbed(m)
    ensures
      var a := AdmitModel(m, m.provider, id, true);
      AutoApprovalReady(a) && a.status == Active && a.admitted && a.provider == m.provider && a.id == id
  {
  }

  lemma OnlyIndex(models: seq<Model>, i: nat)
    requires i < |models| && Ranking.DistinctRoutes(models)
    ensures IndexOf(models, models[i].provider, models[i].id) == i
  {
    var n := IndexOf(models, models[i].provider, models[i].id);
    assert n <= i;
    assert n < i ==> KeyOf(models[n]) != KeyOf(models[i]);
  }

  /** Admitting a fully probed model that is not stale, and then approving it, publishes that
      model and touches no other. */
  lemma BothGatesOpen(cat: Cat, i: nat)
    requires Good(cat) && i < |cat.models| && !IsAutoApprovedProvider(cat.models[i].provider)
    requires (cat.models[i].status == Unknown || cat.models[i].status == Active) && FullyProbed(cat.models[i])
    ensures
      var m := cat.models[i];
      var (open, ok) := SetAllow(SetAdmitted(cat, m.provider, m.id, true), m.provider, m.id, true);
      && ok && |open.models| == |cat.models| && Published(open.models[i]) && KeyOf(open.models[i]) == KeyOf(m)
      && forall j :: 0 <= j < |cat.models| && j != i ==> open.models[j] == cat.models[j]
  {
    var m := cat.models[i];
    var admitted := SetAdmitted(cat, m.provider, m.id, true);
    assert ModelOk(m, cat.allow, cat.admitted);
    AdmittedIsReady(m, m.id);
    AdmitKeepsGood(cat, m.provider, m.id, true);
    OnlyIndex(admitted.models, i);
    forall j | 0 <= j < |cat.models| && j != i ensures admitted.models[j] == cat.models[j] {
      assert KeyOf(cat.models[j]) != KeyOf(m);
    }
  }

  /** A provider that goes away and comes back leaves its models unknown and off the routes,
      with their admission as it was; models of a provider that stays are not touched, unless
      they were stale orphans. */
  lemma OfflineAndBack(m: Model, away: set<string>, back: set<string>)
    requires m.provider in back && (m.orphaned ==> m.status == Stale)
    ensures
      var r := ReconcileModel(ReconcileModel(m, away), back);
      && r.admitted == m.admitted && KeyOf(r) == KeyOf(m) && !r.orphaned
      && (m.provider !in away || m.orphaned ==> r.status == Unknown && !r.autoRoutable)
      && (m.provider in away && !m.orphaned ==> r == m)
  {
  }

  lemma SwitchedEntry(cat: Cat, id: string, on: bool, i: nat)
    requires i < |cat.models| && Ranking.DistinctRoutes(cat.models)
    ensures
      var after := SwitchOne(cat, id, on);
      && |after.models| == |cat.models| && KeyOf(after.models[i]) == KeyOf(cat.models[i])
      && after.models[i] == if cat.models[i].provider == FREE_PROVIDER && cat.models[i].id == id
                            then cat.models[i].(autoRoutable := on) else cat.models[i]
  {
    if cat.models[i].provider == FREE_PROVIDER && cat.models[i].id == id {
      OnlyIndex(cat.models, i);
    }
  }

  lemma SwitchKeepsRoutes(cat: Cat, id: string, on: bool)
    requires Ranking.DistinctRoutes(cat.models)
    ensures Ranking.DistinctRoutes(SwitchOne(cat, id, on).models)
  {
    var after := SwitchOne(cat, id, on).models;
    forall i | 0 <= i < |cat.models| ensures |after| == |cat.models| && KeyOf(after[i]) == KeyOf(cat.models[i]) {
      SwitchedEntry(cat, id, on, i);
    }
  }

  /** An entry after all sections of a switch: the FreeLLMAPI models of the snapshot have the
      decision on them, everything else is as it was. */
  lemma {:induction false} SwitchDecidesEntry(cat: Cat, snapshot: seq<Model>, enabled: bool, i: nat)
    requires i < |cat.models| && Ranking.DistinctRoutes(cat.models) && Ranking.DistinctRoutes(snapshot)
    ensures
      var after := SwitchAll(cat, snapshot, enabled);
      var m := cat.models[i];
      && |after.models| == |cat.models|
      && (m.provider != FREE_PROVIDER ==> after.models[i] == m)
      && (m.provider == FREE_PROVIDER && m in snapshot ==>
            after.models[i] == m.(autoRoutable := enabled && m.status == Active))
      && ((forall j :: 0 <= j < |snapshot| ==> KeyOf(snapshot[j]) != KeyOf(m)) ==> after.models[i] == m)
    decreases |snapshot|
  {
    if snapshot != [] {
      var first := snapshot[0];
      var on := enabled && first.status == Active;
      var next := if first.provider == FREE_PROVIDER then SwitchOne(cat, first.id, on) else cat;
      var m := cat.models[i];
      if first.provider == FREE_PROVIDER {
        SwitchedEntry(cat, first.id, on, i);
        SwitchKeepsRoutes(cat, first.id, on);
      }
      SwitchDecidesEntry(next, snapshot[1..], enabled, i);
      assert forall j :: 0 <= j < |snapshot[1..]| ==> snapshot[1..][j] == snapshot[j + 1];
      if m.provider == FREE_PROVIDER && m in snapshot {
        NotAgain(snapshot, m);
      }
    }
  }

  lemma NotAgain(snapshot: seq<Model>, m: Model)
    requires snapshot != [] && Ranking.DistinctRoutes(snapshot) && m in snapshot
    ensures m == snapshot[0] ==> forall j :: 0 <= j < |snapshot[1..]| ==> KeyOf(snapshot[1..][j]) != KeyOf(m)
    ensures m != snapshot[0] ==> m in snapshot[1..] && KeyOf(snapshot[0]) != KeyOf(m)
  {
    assert forall j :: 0 <= j < |snapshot[1..]| ==> snapshot[1..][j] == snapshot[j + 1];
    var j :| 0 <= j < |snapshot| && snapshot[j] == m;
    assert j > 0 ==> snapshot[1..][j - 1] == m;
  }

  /** `ApplyStateToCatalog` on a catalog that nobody touches meanwhile routes exactly the active
      FreeLLMAPI models, when consent and routing are on, and touches no other entry. */
  lemma SwitchDecides(cat: Cat, enabled: bool, i: nat)
    requires i < |cat.models| && Ranking.DistinctRoutes(cat.models)
    ensures
      var after := SwitchAll(cat, cat.models, enabled);
      && |after.models| == |cat.models| && after.allow == cat.allow && after.admitted == cat.admitted
      && (if cat.models[i].provider == FREE_PROVIDER
          then (after.models[i].autoRoutable <==> enabled && cat.models[i].status == Active)
               && after.models[i].(autoRoutable := cat.models[i].autoRoutable) == cat.models[i]
          else after.models[i] == cat.models[i])
  {
    SwitchDecidesEntry(cat, cat.models, enabled, i);
    SwitchKeepsMaps(cat, cat.models, enabled);
  }

  lemma {:induction false} SwitchKeepsMaps(cat: Cat, snapshot: seq<Model>, enabled: bool)
    ensures SwitchAll(cat, snapshot, enabled).allow == cat.allow
    ensures SwitchAll(cat, snapshot, enabled).admitted == cat.admitted
    decreases |snapshot|
  {
    if snapshot != [] {
      var m := snapshot[0];
      SwitchKeepsMaps(if m.provider == FREE_PROVIDER then SwitchOne(cat, m.id, enabled && m.status == Active) else cat,
                      snapshot[1..], enabled);
    }
  }

  // ---------------------------------------------------------------- the admission map is its log

  /** What the admissions and revocations of a run say last about a key. */
  function LastAdmission(ops: seq<Op>, key: string, otherwise: bool): bool
    decreases |ops|
  {
    if ops == [] then otherwise
    else
      var op := ops[0];
      LastAdmission(ops[1..], key, if op.OnAdmit? && RouteKey(op.p, op.id) == key then op.on else otherwise)
  }

  /** In every interleaving the admission map is decided by admissions and revocations alone,
      the last one on a key winning, whatever syncs, approvals, reconciliations, migrations,
      probes and switches come in between. */
  lemma {:induction false} AdmissionsAreTheLog(cat: Cat, ops: seq<Op>, key: string)
    ensures Lookup(Run(cat, ops).admitted, key) == LastAdmission(ops, key, Lookup(cat.admitted, key))
    decreases |ops|
  {
    if ops != [] {
      AdmissionsAreTheLog(Apply(cat, ops[0]), ops[1..], key);
    }
  }

  /** An admission or revocation never opens the allow gate of any key and never makes a model
      routable, in whatever state it comes. */
  lemma AdmissionOpensNothing(cat: Cat, p: string, id: string, on: bool, key: string, i: nat)
    ensures Lookup(SetAdmitted(cat, p, id, on).allow, key) ==> Lookup(cat.allow, key)
    ensures |SetAdmitted(cat, p, id, on).models| == |cat.models|
    ensures i < |cat.models| && SetAdmitted(cat, p, id, on).models[i].autoRoutable ==> cat.models[i].autoRoutable
  {
  }
}
