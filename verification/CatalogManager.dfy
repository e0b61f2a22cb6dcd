/** The catalog manager (`internal/catalog/manager.go`): a class whose methods update the
    model list and the two gate maps in place, each proved equal to its function in
    `Catalog`. */
module CatalogManager {
  import opened Keys
  import opened CatalogModel
  import opened Catalog
  import CatalogRuns

  class Manager {
    var models: seq<Model>
    var allow: map<string, bool>
    var admitted: map<string, bool>
    var last: map<string, Time>

    function View(): Cat
      reads this
    {
      Cat(models, allow, admitted, last)
    }

    constructor ()
      ensures View() == EMPTY
    {
      models, allow, admitted, last := [], map[], map[], map[];
    }

    constructor FromState(models: seq<Model>, allow: map<string, bool>, admitted: Option<map<string, bool>>,
                          last: map<string, Time>)
      ensures View() == Restored(models, allow, admitted, last)
      ensures admitted.Some? ==> this.admitted == admitted.value && this.allow == allow
      ensures admitted.None? ==> forall k :: !Lookup(this.allow, k) && (Lookup(this.admitted, k) <==> Lookup(allow, k))
    {
      this.models := models;
      this.last := last;
      this.admitted := match admitted case Some(a) => a case None => map k | k in allow && allow[k] :: true;
      this.allow := if admitted.Some? then allow else map k | k in allow && !allow[k] :: false;
    }

    /** `SyncRaw`: the gate snapshots, and then the merge, with nothing in between. */
    method SyncRaw(p: string, raw: seq<RawModel>, now: Time) returns (rejected: bool)
      modifies this
      ensures (View(), rejected) == Sync(old(View()), p, raw, now)
    {
      rejected := MergeSync(p, raw, now, allow, admitted);
    }

    /** The rest of `SyncRaw`, on gate snapshots that may have become old. */
    method MergeSync(p: string, raw: seq<RawModel>, now: Time, allowThen: map<string, bool>,
                     admittedThen: map<string, bool>)
      returns (rejected: bool)
      modifies this
      ensures (View(), rejected) == SyncWith(old(View()), p, raw, now, allowThen, admittedThen)
    {
      var next := ListModels(p, raw, allowThen, admittedThen);
      next := CarryOver(models, p, next);
      var keep, present := SplitOff(models, p);
      if present >= 10 && |next| * 2 < present {
        return true;
      }
      models := keep + next;
      last := last[p := now];
      rejected := false;
    }

    method UpdateProviderModel(id: string, p: string, f: Model -> Model) returns (found: bool)
      modifies this
      ensures View() == Update(old(View()), p, id, f)
      ensures found <==> exists m :: m in old(models) && m.provider == p && m.id == id
    {
      for i := 0 to |models|
        invariant View() == old(View())
        invariant forall j :: 0 <= j < i ==> !(models[j].provider == p && models[j].id == id)
      {
        if models[i].id == id && models[i].provider == p {
          assert IndexOf(models, p, id) == i && models[i] in models;
          models := models[i := f(models[i])];
          return true;
        }
      }
      found := false;
    }

    method ApplyDefaultApprovalPolicy() returns (changed: nat)
      modifies this
      ensures View() == Migrate(old(View()))
      ensures changed == Migrations(old(models), admitted)
    {
      models, changed := MigrateAll(models, admitted);
      assert models == Migrate(old(View())).models;
    }

    method SetAdmitted(p: string, id: string, on: bool) returns (changed: bool)
      modifies this
      ensures View() == Catalog.SetAdmitted(old(View()), p, id, on)
      ensures changed <==> !IsAutoApprovedProvider(p) && exists m :: m in old(models) && m.provider == p && m.id == id
    {
      var key := RouteKey(p, id);
      admitted := admitted[key := on];
      if !on {
        allow := allow[key := false];
      }
      changed := false;
      for i := 0 to |models|
        invariant |models| == |old(models)|
        invariant admitted == old(admitted)[key := on] && last == old(last)
        invariant allow == if on then old(allow) else old(allow)[key := false]
        invariant forall j :: 0 <= j < i ==> models[j] == AdmitModel(old(models)[j], p, id, on)
        invariant forall j :: i <= j < |models| ==> models[j] == old(models)[j]
        invariant changed <==> (!IsAutoApprovedProvider(p)
          && exists j :: 0 <= j < i && old(models)[j].provider == p && old(models)[j].id == id)
      {
        var model := models[i];
        if model.provider != p || model.id != id || IsAutoApprovedProvider(p) {
          continue;
        }
        var updated := AdmitOne(model, id, on);
        models := models[i := updated];
        changed := true;
      }
      assert models == Catalog.SetAdmitted(old(View()), p, id, on).models;
    }

    method SetAllow(p: string, id: string, on: bool) returns (ok: bool)
      modifies this
      ensures (View(), ok) == Catalog.SetAllow(old(View()), p, id, on)
    {
      for i := 0 to |models|
        invariant View() == old(View())
        invariant forall j :: 0 <= j < i ==> !(models[j].provider == p && models[j].id == id)
      {
        var model := models[i];
        if model.provider != p || model.id != id {
          continue;
        }
        assert IndexOf(models, p, id) == i;
        if on {
          var ready := CheckReady(model);
          if !ready {
            return false;
          }
        }
        allow := allow[RouteKey(p, id) := on];
        models := models[i := model.(autoRoutable := on && model.status == Active)];
        return true;
      }
      ok := false;
    }

    method ReconcileProviders(online: set<string>)
      modifies this
      ensures View() == Reconcile(old(View()), online)
    {
      for i := 0 to |models|
        invariant |models| == |old(models)|
        invariant allow == old(allow) && admitted == old(admitted) && last == old(last)
        invariant forall j :: 0 <= j < i ==> models[j] == ReconcileModel(old(models)[j], online)
        invariant forall j :: i <= j < |models| ==> models[j] == old(models)[j]
      {
        var model := models[i];
        if model.provider !in online {
          if model.status != Stale || model.autoRoutable || !model.orphaned {
            models := models[i := model.(status := Stale, autoRoutable := false, orphaned := true)];
          }
          continue;
        }
        if model.status == Stale && model.orphaned {
          models := models[i := model.(status := Unknown, autoRoutable := false, orphaned := false)];
        }
      }
      assert models == Reconcile(old(View()), online).models;
    }
  }

  /** `AutoApprovalReady`: loops over the three probed capabilities. */
  method CheckReady(m: Model) returns (ready: bool)
    ensures ready <==> AutoApprovalReady(m)
  {
    if IsAutoApprovedProvider(m.provider) {
      return true;
    }
    if !m.admitted || m.status != Active || IsMeta(m.id) {
      return false;
    }
    for i := 0 to |PROBED|
      invariant forall j :: 0 <= j < i ==>
        (PROBED[j] in m.evidence && m.evidence[PROBED[j]].source == "runtime_probe"
         && m.evidence[PROBED[j]].level == "protocol")
    {
      var c := PROBED[i];
      if c !in m.evidence || m.evidence[c].source != "runtime_probe" || m.evidence[c].level != "protocol" {
        assert c in PROBED;
        return false;
      }
    }
    ready := true;
  }

  /** The fields a migration may change. */
  /** Each section of the runs is a method of the manager. */
  method Perform(manager: Manager, op: CatalogRuns.Op)
    modifies manager
    ensures manager.View() == CatalogRuns.Apply(old(manager.View()), op)
  {
    match op {
      case OnSync(p, raw, now, allow, admitted) => var _ := manager.MergeSync(p, raw, now, allow, admitted);
      case OnAdmit(p, id, on) => var _ := manager.SetAdmitted(p, id, on);
      case OnAllow(p, id, on) => var _ := manager.SetAllow(p, id, on);
      case OnReconcile(online) => manager.ReconcileProviders(online);
      case OnMigrate => var _ := manager.ApplyDefaultApprovalPolicy();
      case OnProbe(p, id, results, structured, tools, vision) =>
        var _ := manager.UpdateProviderModel(id, p, (m: Model) =>
          m.(evidence := m.evidence + results, structuredOutput := structured, structuredOutputKnown := true,
             tools := tools, vision := vision));
      case OnReviewerRestore(p, id) =>
        var _ := manager.UpdateProviderModel(id, p, (m: Model) => ReviewerRestored(m));
      case OnSwitch(id, on) =>
        var _ := manager.UpdateProviderModel(id, FREE_PROVIDER, (m: Model) => m.(autoRoutable := on));
    }
  }

  /** An entry counts as migrated when its status, its admission or its route changes. */
  lemma MigrationsCountChanges(models: seq<Model>, m: Model, admitted: map<string, bool>)
    ensures
      var r := MigrateModel(m, admitted);
      Migrations(models + [m], admitted) == Migrations(models, admitted)
        + (if r.status == m.status && r.admitted == m.admitted && r.autoRoutable == m.autoRoutable then 0 else 1)
    ensures Migrations([], admitted) == 0
  {
    assert (models + [m])[..|models|] == models;
  }

  predicate SameGates(a: Model, b: Model) {
    a.status == b.status && a.admitted == b.admitted && a.autoRoutable == b.autoRoutable
  }

  /** How many entries a migration changes. */
  function Migrations(models: seq<Model>, admitted: map<string, bool>): nat {
    if models == [] then 0
    else
      var m := models[|models| - 1];
      Migrations(models[..|models| - 1], admitted) + (if SameGates(MigrateModel(m, admitted), m) then 0 else 1)
  }

  method MigrateAll(before: seq<Model>, admitted: map<string, bool>) returns (models: seq<Model>, changed: nat)
    ensures models == MapModels(before, m => MigrateModel(m, admitted))
    ensures changed == Migrations(before, admitted)
  {
    models, changed := before, 0;
    for i := 0 to |before|
      invariant |models| == |before|
      invariant forall j :: 0 <= j < i ==> models[j] == MigrateModel(before[j], admitted)
      invariant forall j :: i <= j < |models| ==> models[j] == before[j]
      invariant changed == Migrations(before[..i], admitted)
    {
      assert before[..i + 1][..i] == before[..i];
      var model, modelChanged := MigrateOne(models[i], admitted);
      models := models[i := model];
      if modelChanged {
        changed := changed + 1;
      }
    }
    assert before[..|before|] == before;
  }

  /** The merge of a new list with what is known of its models. */
  method CarryOver(models: seq<Model>, p: string, listed: seq<Model>) returns (next: seq<Model>)
    ensures next == Carried(models, p, listed)
  {
    next := listed;
    for i := 0 to |next|
      invariant |next| == |listed|
      invariant forall j :: 0 <= j < i ==> next[j] == Carry(listed[j], LastWith(models, p, listed[j].id))
      invariant forall j :: i <= j < |next| ==> next[j] == listed[j]
    {
      var prev := LastWith(models, p, next[i].id);
      if prev.Some? {
        var o := prev.value;
        next := next[i := next[i].(
          orphaned := false, structuredOutput := o.structuredOutput,
          structuredOutputKnown := o.structuredOutputKnown, evidence := o.evidence,
          tools := o.tools || next[i].tools, vision := o.vision || next[i].vision)];
      }
    }
  }

  /** The migration of one model, and whether it changed anything. */
  method MigrateOne(m: Model, admitted: map<string, bool>) returns (r: Model, changed: bool)
    ensures r == MigrateModel(m, admitted)
    ensures changed <==> !SameGates(r, m)
  {
    if IsMeta(m.id) || m.status == Stale || m.orphaned {
      return m, false;
    }
    if IsAutoApprovedProvider(m.provider) {
      r, changed := OpenGates(m);
    } else {
      r, changed := CloseRoute(m, Lookup(admitted, RouteKey(m.provider, m.id)) || m.admitted);
    }
  }

  method OpenGates(m: Model) returns (r: Model, changed: bool)
    ensures r == Opened(m)
    ensures changed <==> !SameGates(r, m)
  {
    var status, routable, moved := OpenRoute(m.status, m.autoRoutable);
    changed := moved;
    if !m.admitted {
      changed := true;
    }
    r := m.(status := status, admitted := true, autoRoutable := routable);
  }

  method OpenRoute(before: Status, wasRoutable: bool) returns (status: Status, routable: bool, changed: bool)
    ensures status == if before == Unknown then Active else before
    ensures routable <==> wasRoutable || status == Active
    ensures changed <==> status != before || routable != wasRoutable
  {
    status, routable, changed := before, wasRoutable, false;
    if status == Unknown {
      status, changed := Active, true;
    }
    if status == Active && !routable {
      routable, changed := true, true;
    }
  }

  method CloseRoute(m: Model, listed: bool) returns (r: Model, changed: bool)
    ensures r == OffRoutes(m, listed)
    ensures changed <==> !SameGates(r, m)
  {
    var status, routable := m.status, m.autoRoutable;
    changed := false;
    if listed && status == Unknown {
      status, changed := Active, true;
    }
    if m.admitted != listed {
      changed := true;
    }
    if routable {
      routable, changed := false, true;
    }
    r := m.(status := status, admitted := listed, autoRoutable := routable);
  }

  method AdmitOne(m: Model, id: string, on: bool) returns (r: Model)
    requires m.id == id && !IsAutoApprovedProvider(m.provider)
    ensures r == AdmitModel(m, m.provider, id, on)
  {
    r := m.(admitted := on, autoRoutable := false);
    if on && r.status == Unknown && !IsMeta(id) {
      r := r.(status := Active);
    }
    if !on && r.status == Active {
      r := r.(status := Unknown);
    }
  }

  /** `SyncService.Apply`. */
  method ListModels(p: string, raw: seq<RawModel>, allow: map<string, bool>, admitted: map<string, bool>)
    returns (out: seq<Model>)
    ensures out == Listed(p, raw, allow, admitted)
  {
    out := [];
    for i := 0 to |raw|
      invariant out == Listed(p, raw[..i], allow, admitted)
    {
      assert raw[..i + 1][..i] == raw[..i];
      if !Usable(raw[i]) {
        assert UsableOf(raw[..i + 1]) == UsableOf(raw[..i]);
        continue;
      }
      assert UsableOf(raw[..i + 1]) == UsableOf(raw[..i]) + [raw[i]];
      var m := ListOne(p, raw[i], allow, admitted);
      out := out + [m];
    }
    assert raw[..|raw|] == raw;
  }

  method ListOne(p: string, x: RawModel, allow: map<string, bool>, admitted: map<string, bool>)
    returns (m: Model)
    ensures m == FromRaw(p, x, allow, admitted)
  {
    var id := TrimSpace(x.id);
    var context := x.context;
    if context < 0 || context > 10_000_000 {
      context := 0;
    }
    var key := RouteKey(p, x.id);
    var isAuto, isMeta := IsAutoApprovedProvider(p), IsMeta(id);
    var isAdmitted := Lookup(admitted, key) || isAuto;
    var approved := Lookup(allow, key);
    var routable := (!isMeta && isAuto) || (!isMeta && isAdmitted && approved);
    var status := Unknown;
    if isAdmitted || routable {
      status := Active;
    }
    m := Model(id, p, status, routable, isAdmitted, [], context, x.tools, x.vision,
               x.structuredOutput || x.jsonMode,
               x.structuredOutputKnown || x.structuredOutput || x.jsonMode,
               false, false, map[], 0, false);
  }

  /** The two passes over the present models: how many belong to the provider, and the rest. */
  method SplitOff(models: seq<Model>, p: string) returns (keep: seq<Model>, count: nat)
    ensures keep == Others(models, p) && count == CountOf(models, p)
  {
    keep, count := [], 0;
    for i := 0 to |models|
      invariant keep == Others(models[..i], p) && count == CountOf(models[..i], p)
    {
      assert models[..i + 1][..i] == models[..i];
      if models[i].provider == p {
        count := count + 1;
      } else {
        keep := keep + [models[i]];
      }
    }
    assert models[..|models|] == models;
  }

  /** `ApplyStateToCatalog` (`internal/api/integration.go`): every FreeLLMAPI model of a snapshot
      gets the routing flag that the consent state and its status in the snapshot call for, one
      section per model. */
  method ApplyStateToCatalog(manager: Manager, authorized: bool, routeEnabled: bool)
    modifies manager
    ensures manager.View() == SwitchAll(old(manager.View()), old(manager.models), authorized && routeEnabled)
  {
    var enabled := authorized && routeEnabled;
    var allow, snapshot := manager.allow, manager.models;
    for i := 0 to |snapshot|
      invariant SwitchAll(old(manager.View()), snapshot, enabled) == SwitchAll(manager.View(), snapshot[i..], enabled)
    {
      assert snapshot[i..][1..] == snapshot[i + 1..];
      var model := snapshot[i];
      if model.provider != FREE_PROVIDER {
        continue;
      }
      var approved := Lookup(allow, RouteKey(model.provider, model.id)) || IsAutoApprovedProvider(model.provider);
      var allowed := enabled && approved && model.status == Active;
      ghost var before := manager.View();
      var _ := manager.UpdateProviderModel(model.id, model.provider, (x: Model) => x.(autoRoutable := allowed));
      SameSwitch(before, model.id, allowed);
    }
  }

  lemma SameSwitch(cat: Cat, id: string, on: bool)
    ensures Update(cat, FREE_PROVIDER, id, (x: Model) => x.(autoRoutable := on)) == SwitchOne(cat, id, on)
  {
  }
}
