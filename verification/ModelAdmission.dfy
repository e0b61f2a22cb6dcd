/** Admission changes and their undo (`internal/api/model_admission.go`). */
module ModelAdmission {
  import opened Keys
  import opened CatalogModel
  import opened Catalog
  import opened CatalogManager
  import G = GovernanceRules

  datatype Adm = Adm(cat: Cat, audits: seq<G.Audit>)

  // ---------------------------------------------------------------- validation

  /** The keyed copy of the model list holds the last entry of each key. */
  function Keyed(models: seq<Model>, key: string): Option<Model> {
    if models == [] then None
    else
      var m := models[|models| - 1];
      if KeyOf(m) == key then Some(m) else Keyed(models[..|models| - 1], key)
  }

  predicate Admissible(m: Model) {
    !IsAutoApprovedProvider(m.provider) && !IsMeta(m.id) && m.status != Stale && !m.orphaned
  }

  predicate KeyOk(models: seq<Model>, key: string) {
    var m := Keyed(models, key);
    m.Some? && Admissible(m.value)
  }

  predicate Valid(models: seq<Model>, cs: seq<G.Change>) {
    1 <= |cs| <= 100 && G.DistinctKeys(cs) && forall i :: 0 <= i < |cs| ==> KeyOk(models, cs[i].key)
  }

  // ---------------------------------------------------------------- effects

  function AdmitByKey(cat: Cat, c: G.Change): Cat {
    match SplitKey(c.key)
    case None => cat
    case Some(parts) => SetAdmitted(cat, parts.0, parts.1, c.on)
  }

  function AdmitAll(cat: Cat, cs: seq<G.Change>): Cat
    decreases |cs|
  {
    if cs == [] then cat else AdmitAll(AdmitByKey(cat, cs[0]), cs[1..])
  }

  function ApplyStep(a: Adm, cs: seq<G.Change>, revision: string): (Adm, bool) {
    if !Valid(a.cat.models, cs) then (a, false)
    else
      (Adm(AdmitAll(a.cat, cs),
           a.audits + [G.Audit(revision, G.Apply, cs, G.Previous(a.cat.admitted, cs))]), true)
  }

  function UndoStep(a: Adm, revision: string, stamp: string): (Adm, bool) {
    var target := G.FindApply(a.audits, revision);
    if revision == "" || target.None? || !Valid(a.cat.models, target.value) then (a, false)
    else (Adm(AdmitAll(a.cat, target.value), a.audits + [G.Audit(stamp, G.Undo, target.value, [])]), true)
  }

  // ---------------------------------------------------------------- the runtime

  class Runtime {
    const manager: Manager
    var audits: seq<G.Audit>

    function View(): Adm
      reads this, manager
    {
      Adm(manager.View(), audits)
    }

    constructor (manager: Manager)
      ensures this.manager == manager && View() == Adm(manager.View(), [])
    {
      this.manager, audits := manager, [];
    }

    method ApplyAdmissions(cs: seq<G.Change>, revision: string) returns (ok: bool)
      modifies this, manager
      ensures (View(), ok) == ApplyStep(old(View()), cs, revision)
    {
      ok := Validate(manager.models, cs);
      if !ok {
        return;
      }
      ValidSplits(manager.models, cs);
      var admitted := manager.admitted;
      var previous: seq<G.Change> := [];
      for i := 0 to |cs|
        invariant AdmitAll(old(manager.View()), cs) == AdmitAll(manager.View(), cs[i..])
        invariant previous == G.Previous(admitted, cs[..i])
        invariant audits == old(audits)
      {
        assert cs[i..][1..] == cs[i + 1..];
        previous := previous + [G.Change(cs[i].key, Lookup(admitted, cs[i].key))];
        var parts := SplitKey(cs[i].key).value;
        var _ := manager.SetAdmitted(parts.0, parts.1, cs[i].on);
      }
      assert cs[..|cs|] == cs;
      audits := audits + [G.Audit(revision, G.Apply, cs, previous)];
    }

    method UndoAdmissions(revision: string, stamp: string) returns (ok: bool)
      modifies this, manager
      ensures (View(), ok) == UndoStep(old(View()), revision, stamp)
    {
      if revision == "" {
        return false;
      }
      var target := Search(audits, revision);
      if target.None? {
        return false;
      }
      var changes := target.value;
      ok := Validate(manager.models, changes);
      if !ok {
        return;
      }
      ValidSplits(manager.models, changes);
      for i := 0 to |changes|
        invariant AdmitAll(old(manager.View()), changes) == AdmitAll(manager.View(), changes[i..])
        invariant audits == old(audits)
      {
        assert changes[i..][1..] == changes[i + 1..];
        var parts := SplitKey(changes[i].key).value;
        var _ := manager.SetAdmitted(parts.0, parts.1, changes[i].on);
      }
      audits := audits + [G.Audit(stamp, G.Undo, changes, [])];
    }
  }

  method Search(audits: seq<G.Audit>, revision: string) returns (target: Option<seq<G.Change>>)
    ensures target == G.FindApply(audits, revision)
  {
    var i := |audits|;
    assert audits[..i] == audits;
    while i > 0
      invariant 0 <= i <= |audits|
      invariant G.FindApply(audits, revision) == G.FindApply(audits[..i], revision)
    {
      i := i - 1;
      assert audits[..i + 1][..i] == audits[..i];
      if audits[i].revision == revision && audits[i].action == G.Apply {
        return Some(audits[i].previous);
      }
    }
    target := None;
  }

  /** The keyed copy of the model list. */
  method KeyedCopy(models: seq<Model>) returns (keyed: map<string, Model>)
    ensures forall k :: (if k in keyed then Some(keyed[k]) else None) == Keyed(models, k)
  {
    keyed := map[];
    for n := 0 to |models|
      invariant forall k :: (if k in keyed then Some(keyed[k]) else None) == Keyed(models[..n], k)
    {
      assert models[..n + 1][..n] == models[..n];
      keyed := keyed[KeyOf(models[n]) := models[n]];
    }
    assert models[..|models|] == models;
  }

  method Validate(models: seq<Model>, cs: seq<G.Change>) returns (ok: bool)
    ensures ok <==> Valid(models, cs)
  {
    if |cs| == 0 || |cs| > 100 {
      return false;
    }
    var keyed := KeyedCopy(models);
    var seen: set<string> := {};
    for n := 0 to |cs|
      invariant forall i :: 0 <= i < n ==> cs[i].key in seen && KeyOk(models, cs[i].key)
      invariant forall k :: k in seen ==> exists i :: 0 <= i < n && cs[i].key == k
      invariant forall i, j :: 0 <= i < j < n ==> cs[i].key != cs[j].key
    {
      var key := cs[n].key;
      if key in seen {
        return false;
      }
      seen := seen + {key};
      if key !in keyed || !Admissible(keyed[key]) {
        assert !KeyOk(models, cs[n].key);
        return false;
      }
    }
    ok := true;
  }

  // ---------------------------------------------------------------- helpers

  lemma {:induction false} KeyedIs(models: seq<Model>, key: string) returns (i: nat)
    requires Keyed(models, key).Some?
    ensures i < |models| && models[i] == Keyed(models, key).value && KeyOf(models[i]) == key
  {
    i := |models| - 1;
    if KeyOf(models[i]) != key {
      i := KeyedIs(models[..i], key);
    }
  }

  /** A key of a model has two parts. */
  lemma {:induction false} KeyHasSlash(p: string, id: string)
    ensures SplitKey(RouteKey(p, id)).Some?
  {
    assert RouteKey(p, id)[|p|] == '/';
  }

  lemma ValidSplits(models: seq<Model>, cs: seq<G.Change>)
    requires Valid(models, cs)
    ensures forall i :: 0 <= i < |cs| ==> SplitKey(cs[i].key).Some?
  {
    forall i | 0 <= i < |cs| ensures SplitKey(cs[i].key).Some? {
      assert KeyOk(models, cs[i].key);
      var j := KeyedIs(models, cs[i].key);
      KeyHasSlash(models[j].provider, models[j].id);
    }
  }

  // ---------------------------------------------------------------- what a list of changes does

  /** The same routes, as admissible as before. */
  predicate SameEntry(a: Model, b: Model) {
    a.provider == b.provider && a.id == b.id && (Admissible(a) <==> Admissible(b))
  }

  predicate SameEntries(a: seq<Model>, b: seq<Model>) {
    |a| == |b| && forall i :: 0 <= i < |a| ==> SameEntry(a[i], b[i])
  }

  lemma {:induction false} SameKeyed(a: seq<Model>, b: seq<Model>, key: string)
    requires SameEntries(a, b)
    ensures KeyOk(a, key) <==> KeyOk(b, key)
  {
    if a != [] {
      var n := |a| - 1;
      assert SameEntry(a[n], b[n]);
      if KeyOf(a[n]) != key {
        SameKeyed(a[..n], b[..n], key);
      }
    }
  }

  lemma SameEntriesTransitive(a: seq<Model>, b: seq<Model>, c: seq<Model>)
    requires SameEntries(a, b) && SameEntries(b, c)
    ensures SameEntries(a, c)
  {
    forall i | 0 <= i < |a| ensures SameEntry(a[i], c[i]) {
      assert SameEntry(a[i], b[i]) && SameEntry(b[i], c[i]);
    }
  }

  predicate AllKeysOk(models: seq<Model>, cs: seq<G.Change>) {
    forall i :: 0 <= i < |cs| ==> KeyOk(models, cs[i].key)
  }

  lemma SameAllKeysOk(a: seq<Model>, b: seq<Model>, cs: seq<G.Change>)
    requires SameEntries(a, b)
    ensures AllKeysOk(a, cs) <==> AllKeysOk(b, cs)
  {
    forall i | 0 <= i < |cs| ensures KeyOk(a, cs[i].key) <==> KeyOk(b, cs[i].key) {
      SameKeyed(a, b, cs[i].key);
    }
  }

  /** Every entry under an admissible key is outside FreeLLMAPI. */
  lemma KeyOkParts(models: seq<Model>, key: string)
    requires KeyOk(models, key) && G.SlashFreeModels(models)
    ensures SplitKey(key).Some?
    ensures
      var parts := SplitKey(key).value;
      !IsAutoApprovedProvider(parts.0) && !IsMeta(parts.1)
      && forall i :: 0 <= i < |models| ==>
           (KeyOf(models[i]) == key <==> models[i].provider == parts.0 && models[i].id == parts.1)
  {
    var j := KeyedIs(models, key);
    SplitRouteKey(models[j].provider, models[j].id);
    forall i | 0 <= i < |models| && KeyOf(models[i]) == key
      ensures models[i].provider == models[j].provider && models[i].id == models[j].id
    {
      RouteKeyInjective(models[i].provider, models[i].id, models[j].provider, models[j].id);
    }
  }

  /** How an entry looks after its key was admitted or revoked. */
  predicate AdmittedAs(m: Model, after: Model, on: bool) {
    SameEntry(m, after) && after.admitted == on && !after.autoRoutable
  }

  lemma AdmitFields(m: Model, on: bool)
    requires !IsAutoApprovedProvider(m.provider)
    ensures
      var a := AdmitModel(m, m.provider, m.id, on);
      && a.provider == m.provider && a.id == m.id && a.orphaned == m.orphaned
      && (a.status == Stale <==> m.status == Stale) && a.admitted == on && !a.autoRoutable
  {
  }

  lemma SameAdmissible(m: Model, a: Model)
    requires a.provider == m.provider && a.id == m.id && a.orphaned == m.orphaned
    requires a.status == Stale <==> m.status == Stale
    ensures SameEntry(m, a)
  {
  }

  lemma AdmitModelIs(m: Model, on: bool)
    requires !IsAutoApprovedProvider(m.provider)
    ensures AdmittedAs(m, AdmitModel(m, m.provider, m.id, on), on)
  {
    AdmitFields(m, on);
    SameAdmissible(m, AdmitModel(m, m.provider, m.id, on));
  }

  lemma OneAdmission(cat: Cat, c: G.Change)
    requires KeyOk(cat.models, c.key) && G.SlashFreeModels(cat.models)
    ensures
      var after := AdmitByKey(cat, c);
      && |after.models| == |cat.models| && after.last == cat.last
      && after.admitted == cat.admitted[c.key := c.on]
      && after.allow == (if c.on then cat.allow else cat.allow[c.key := false])
    ensures forall i :: 0 <= i < |cat.models| && KeyOf(cat.models[i]) != c.key ==>
      AdmitByKey(cat, c).models[i] == cat.models[i]
    ensures forall i :: 0 <= i < |cat.models| && KeyOf(cat.models[i]) == c.key ==>
      AdmittedAs(cat.models[i], AdmitByKey(cat, c).models[i], c.on)
  {
    KeyOkParts(cat.models, c.key);
    JoinSplitKey(c.key);
    forall i | 0 <= i < |cat.models| && KeyOf(cat.models[i]) == c.key
      ensures AdmittedAs(cat.models[i], AdmitByKey(cat, c).models[i], c.on)
    {
      AdmitModelIs(cat.models[i], c.on);
    }
  }

  lemma OneKeepsEntries(cat: Cat, c: G.Change)
    requires KeyOk(cat.models, c.key) && G.SlashFreeModels(cat.models)
    ensures SameEntries(cat.models, AdmitByKey(cat, c).models) && G.SlashFreeModels(AdmitByKey(cat, c).models)
  {
    OneAdmission(cat, c);
    var after := AdmitByKey(cat, c).models;
    forall i | 0 <= i < |after| ensures SameEntry(cat.models[i], after[i]) {
      if KeyOf(cat.models[i]) == c.key {
        assert AdmittedAs(cat.models[i], after[i], c.on);
      }
    }
    assert forall i :: 0 <= i < |after| ==> SameEntry(cat.models[i], after[i]);
  }

  /** An entry after a list of changes. */
  predicate EntryAfter(m: Model, after: Model, cs: seq<G.Change>) {
    if KeyOf(m) in G.KeysOf(cs) then AdmittedAs(m, after, G.Decided(cs, KeyOf(m), false)) else after == m
  }

  predicate GateAfter(before: bool, after: bool, cs: seq<G.Change>, k: string) {
    (after ==> before) && (k !in G.KeysOf(cs) ==> after == before)
  }

  lemma {:induction false} EntriesAfter(cat: Cat, cs: seq<G.Change>)
    requires AllKeysOk(cat.models, cs) && G.SlashFreeModels(cat.models)
    ensures
      var after := AdmitAll(cat, cs);
      SameEntries(cat.models, after.models) && G.SlashFreeModels(after.models) && after.last == cat.last
    decreases |cs|
  {
    if cs == [] {
      assert forall i :: 0 <= i < |cat.models| ==> SameEntry(cat.models[i], cat.models[i]);
    } else {
      var next := AdmitByKey(cat, cs[0]);
      OneAdmission(cat, cs[0]);
      OneKeepsEntries(cat, cs[0]);
      SameAllKeysOk(cat.models, next.models, cs);
      EntriesAfter(next, cs[1..]);
      SameEntriesTransitive(cat.models, next.models, AdmitAll(next, cs[1..]).models);
    }
  }

  lemma {:induction false} GatesAfter(cat: Cat, cs: seq<G.Change>, k: string)
    requires AllKeysOk(cat.models, cs) && G.SlashFreeModels(cat.models)
    ensures Lookup(AdmitAll(cat, cs).admitted, k) == G.Decided(cs, k, Lookup(cat.admitted, k))
    ensures GateAfter(Lookup(cat.allow, k), Lookup(AdmitAll(cat, cs).allow, k), cs, k)
    decreases |cs|
  {
    if cs != [] {
      var next := AdmitByKey(cat, cs[0]);
      OneAdmission(cat, cs[0]);
      OneKeepsEntries(cat, cs[0]);
      SameAllKeysOk(cat.models, next.models, cs);
      GatesAfter(next, cs[1..], k);
      G.KeysOfFirst(cs);
    }
  }

  /** A list of changes admits what it names, takes it off the routes, and opens no gate. */
  lemma AfterChanges(cat: Cat, cs: seq<G.Change>, k: string)
    requires AllKeysOk(cat.models, cs) && G.SlashFreeModels(cat.models)
    ensures
      var after := AdmitAll(cat, cs);
      && SameEntries(cat.models, after.models) && G.SlashFreeModels(after.models) && after.last == cat.last
      && Lookup(after.admitted, k) == G.Decided(cs, k, Lookup(cat.admitted, k))
      && GateAfter(Lookup(cat.allow, k), Lookup(after.allow, k), cs, k)
  {
    EntriesAfter(cat, cs);
    GatesAfter(cat, cs, k);
  }

  lemma {:induction false} EntryAfterChanges(cat: Cat, cs: seq<G.Change>, i: nat)
    requires AllKeysOk(cat.models, cs) && G.SlashFreeModels(cat.models) && i < |cat.models|
    ensures i < |AdmitAll(cat, cs).models| && EntryAfter(cat.models[i], AdmitAll(cat, cs).models[i], cs)
    decreases |cs|
  {
    if cs != [] {
      var next := AdmitByKey(cat, cs[0]);
      var key := KeyOf(cat.models[i]);
      OneAdmission(cat, cs[0]);
      OneKeepsEntries(cat, cs[0]);
      SameAllKeysOk(cat.models, next.models, cs);
      assert SameEntry(cat.models[i], next.models[i]);
      EntryAfterChanges(next, cs[1..], i);
      G.KeysOfFirst(cs);
      G.DecidedIs(cs[1..], key, if cs[0].key == key then cs[0].on else false);
    }
  }

  // ---------------------------------------------------------------- apply and undo

  ghost predicate GatesRestored(a: Cat, t: Cat, keys: set<string>) {
    && (forall k :: Lookup(t.admitted, k) == Lookup(a.admitted, k))
    && (forall k :: Lookup(t.allow, k) ==> Lookup(a.allow, k))
    && (forall k :: k !in keys ==> Lookup(t.allow, k) == Lookup(a.allow, k))
  }

  predicate EntryRestored(a: Cat, t: Cat, keys: set<string>, i: nat)
    requires i < |a.models| && i < |t.models|
  {
    var m := a.models[i];
    if KeyOf(m) in keys then AdmittedAs(m, t.models[i], Lookup(a.admitted, KeyOf(m))) else t.models[i] == m
  }

  /** The state `t` is `a` with the given keys admitted as they were, and off the routes. */
  ghost predicate Restored(a: Cat, t: Cat, keys: set<string>) {
    && SameEntries(a.models, t.models) && t.last == a.last && GatesRestored(a, t, keys)
    && forall i :: 0 <= i < |a.models| ==> EntryRestored(a, t, keys, i)
  }

  lemma PreviousValid(cat: Cat, cs: seq<G.Change>, models: seq<Model>)
    requires Valid(cat.models, cs) && SameEntries(cat.models, models)
    ensures Valid(models, G.Previous(cat.admitted, cs)) && AllKeysOk(models, G.Previous(cat.admitted, cs))
  {
    var prev := G.Previous(cat.admitted, cs);
    SameAllKeysOk(cat.models, models, cs);
    assert forall i :: 0 <= i < |cs| ==> KeyOk(models, cs[i].key) && prev[i].key == cs[i].key;
  }

  lemma RestoreGates(a: Cat, cs: seq<G.Change>, t: Cat, later: set<string>)
    requires Valid(a.models, cs) && G.SlashFreeModels(a.models) && G.SlashFreeModels(t.models)
    requires Restored(AdmitAll(a, cs), t, later) && AllKeysOk(t.models, G.Previous(a.admitted, cs))
    ensures GatesRestored(a, AdmitAll(t, G.Previous(a.admitted, cs)), G.KeysOf(cs) + later)
  {
    var prev := G.Previous(a.admitted, cs);
    var u := AdmitAll(t, prev);
    forall k
      ensures Lookup(u.admitted, k) == Lookup(a.admitted, k)
      ensures Lookup(u.allow, k) ==> Lookup(a.allow, k)
      ensures k !in G.KeysOf(cs) + later ==> Lookup(u.allow, k) == Lookup(a.allow, k)
    {
      AfterChanges(a, cs, k);
      AfterChanges(t, prev, k);
      G.DecidedByPrevious(a.admitted, cs, k, Lookup(t.admitted, k));
      G.DecidedIs(cs, k, Lookup(a.admitted, k));
    }
  }

  lemma RestoreEntry(a: Cat, cs: seq<G.Change>, t: Cat, later: set<string>, i: nat)
    requires Valid(a.models, cs) && G.SlashFreeModels(a.models) && G.SlashFreeModels(t.models)
    requires Restored(AdmitAll(a, cs), t, later) && AllKeysOk(t.models, G.Previous(a.admitted, cs))
    requires i < |a.models|
    ensures
      var u := AdmitAll(t, G.Previous(a.admitted, cs));
      i < |u.models| && EntryRestored(a, u, G.KeysOf(cs) + later, i)
  {
    var key := KeyOf(a.models[i]);
    var b := AdmitAll(a, cs);
    AfterChanges(a, cs, key);
    EntryAfterChanges(a, cs, i);
    assert SameEntry(a.models[i], b.models[i]) && EntryRestored(b, t, later, i);
    EntryAfterChanges(t, G.Previous(a.admitted, cs), i);
    G.DecidedByPrevious(a.admitted, cs, key, false);
    G.DecidedIs(cs, key, Lookup(a.admitted, key));
  }

  function ApplyAll(a: Adm, css: seq<seq<G.Change>>, revs: seq<string>): Option<Adm>
    requires |css| == |revs|
    decreases |css|
  {
    if css == [] then Some(a)
    else
      var (next, ok) := ApplyStep(a, css[0], revs[0]);
      if ok then ApplyAll(next, css[1..], revs[1..]) else None
  }

  /** Undoes the later revisions first. */
  function UndoAll(a: Adm, revs: seq<string>, stamps: seq<string>): Option<Adm>
    requires |revs| == |stamps|
    decreases |revs|
  {
    if revs == [] then Some(a)
    else
      match UndoAll(a, revs[1..], stamps[1..])
      case None => None
      case Some(t) => var (u, ok) := UndoStep(t, revs[0], stamps[0]); if ok then Some(u) else None
  }

  ghost predicate BackFrom(a: Adm, t: Adm, keys: set<string>, revs: seq<string>) {
    Restored(a.cat, t.cat, keys) && G.Continues(a.audits, t.audits, revs) && G.SlashFreeModels(t.cat.models)
  }

  lemma UndoOne(a: Adm, cs: seq<G.Change>, rev: string, t: Adm, revs: seq<string>, later: set<string>, stamp: string)
    requires ApplyStep(a, cs, rev).1 && G.SlashFreeModels(a.cat.models) && rev !in revs && rev != ""
    requires BackFrom(ApplyStep(a, cs, rev).0, t, later, revs)
    ensures UndoStep(t, rev, stamp).1 && BackFrom(a, UndoStep(t, rev, stamp).0, G.KeysOf(cs) + later, [rev] + revs)
  {
    var prev := G.Previous(a.cat.admitted, cs);
    var b := ApplyStep(a, cs, rev).0;
    G.FoundAgain(a.audits, G.Audit(rev, G.Apply, cs, prev), t.audits, revs);
    AfterChanges(a.cat, cs, "");
    SameEntriesTransitive(a.cat.models, b.cat.models, t.cat.models);
    PreviousValid(a.cat, cs, t.cat.models);
    AfterChanges(t.cat, prev, "");
    var u := UndoStep(t, rev, stamp).0;
    SameEntriesTransitive(a.cat.models, t.cat.models, u.cat.models);
    RestoreGates(a.cat, cs, t.cat, later);
    forall i | 0 <= i < |a.cat.models| ensures EntryRestored(a.cat, u.cat, G.KeysOf(cs) + later, i) {
      RestoreEntry(a.cat, cs, t.cat, later, i);
    }
    G.ContinuesOne(a.audits, t.audits, [rev] + revs, G.Audit(stamp, G.Undo, prev, []));
  }

  /** Any stack of admission changes can be undone in reverse order.  The admission map is
      then back where it was; every entry that was touched has the admission the map says and
      is off the routes, every other entry is as it was; and no gate has been opened. */
  lemma {:induction false} UndoStack(a: Adm, css: seq<seq<G.Change>>, revs: seq<string>, stamps: seq<string>, top: Adm)
    requires |css| == |revs| == |stamps| && G.DistinctRevisions(revs) && G.SlashFreeModels(a.cat.models)
    requires ApplyAll(a, css, revs) == Some(top)
    ensures
      var back := UndoAll(top, revs, stamps);
      back.Some? && BackFrom(a, back.value, G.Touched(css), revs)
    decreases |css|
  {
    if css == [] {
      assert forall i :: 0 <= i < |a.cat.models| ==> SameEntry(a.cat.models[i], a.cat.models[i]);
    } else {
      var b := ApplyStep(a, css[0], revs[0]).0;
      AfterChanges(a.cat, css[0], "");
      UndoStack(b, css[1..], revs[1..], stamps[1..], top);
      assert revs == [revs[0]] + revs[1..];
      UndoOne(a, css[0], revs[0], UndoAll(top, revs[1..], stamps[1..]).value, revs[1..], G.Touched(css[1..]), stamps[0]);
    }
  }

  /** In particular nothing became routable. */
  lemma UndoNeverRoutes(a: Adm, css: seq<seq<G.Change>>, revs: seq<string>, stamps: seq<string>, top: Adm, i: nat)
    requires |css| == |revs| == |stamps| && G.DistinctRevisions(revs) && G.SlashFreeModels(a.cat.models)
    requires ApplyAll(a, css, revs) == Some(top) && i < |a.cat.models|
    ensures
      var back := UndoAll(top, revs, stamps);
      && back.Some? && i < |back.value.cat.models|
      && (back.value.cat.models[i].autoRoutable <==>
          a.cat.models[i].autoRoutable && KeyOf(a.cat.models[i]) !in G.Touched(css))
  {
    UndoStack(a, css, revs, stamps, top);
    assert EntryRestored(a.cat, UndoAll(top, revs, stamps).value.cat, G.Touched(css), i);
  }

  // ---------------------------------------------------------------- in plain values

  /** An entry that may be admitted or revoked: not from FreeLLMAPI, no meta name, neither stale
      nor orphaned. */
  predicate Decidable(m: Model) {
    m.provider != "freellmapi" && !IsMeta(m.id) && m.status != Stale && !m.orphaned
  }

  /** The last entry of the key may be decided. */
  predicate LastDecidable(models: seq<Model>, key: string) {
    exists n :: 0 <= n < |models| && LastOf(models, key, n) && Decidable(models[n])
  }

  /** A list passes when it has one to a hundred changes, none of a key twice, each of a key
      whose last entry may be decided. */
  lemma ListPassesIff(models: seq<Model>, cs: seq<G.Change>)
    ensures Valid(models, cs) <==>
      && |cs| > 0 && |cs| < 101 && (forall i, j :: 0 <= i < j < |cs| ==> cs[i].key != cs[j].key)
      && forall i :: 0 <= i < |cs| ==> LastDecidable(models, cs[i].key)
  {
    forall i | 0 <= i < |cs| ensures KeyOk(models, cs[i].key) <==> LastDecidable(models, cs[i].key) {
      LastOfKey(models, cs[i].key);
    }
  }

  predicate LastOf(models: seq<Model>, key: string, n: nat)
    requires n < |models|
  {
    models[n].provider + "/" + models[n].id == key
    && forall j :: n < j < |models| ==> models[j].provider + "/" + models[j].id != key
  }

  lemma LastInFront(models: seq<Model>, last: Model, key: string, n: nat)
    requires n < |models| && KeyOf(last) != key
    ensures LastOf(models + [last], key, n) <==> LastOf(models, key, n)
  {
    var all := models + [last];
    assert all[n] == models[n] && all[|models|] == last;
    assert forall j :: n < j < |models| ==> all[j] == models[j];
  }

  lemma {:induction false} LastOfKey(models: seq<Model>, key: string)
    ensures forall n :: 0 <= n < |models| && LastOf(models, key, n) ==> Keyed(models, key) == Some(models[n])
    ensures Keyed(models, key).Some? ==>
      exists n :: 0 <= n < |models| && LastOf(models, key, n) && models[n] == Keyed(models, key).value
  {
    if models != [] {
      var last, init := models[|models| - 1], models[..|models| - 1];
      assert models == init + [last];
      LastOfKey(init, key);
      if KeyOf(last) == key {
        assert LastOf(models, key, |models| - 1);
      } else {
        forall n | 0 <= n < |init| ensures LastOf(models, key, n) <==> LastOf(init, key, n) {
          LastInFront(init, last, key, n);
        }
        assert !LastOf(models, key, |init|);
      }
    }
  }

  /** An application notes its changes and the admissions from before, an undo only its changes. */
  lemma AuditWrites(a: Adm, cs: seq<G.Change>, revision: string, stamp: string)
    ensures
      var (t, ok) := ApplyStep(a, cs, revision);
      if ok then |t.audits| == |a.audits| + 1 && t.audits[..|a.audits|] == a.audits
                 && (var x := t.audits[|a.audits|];
                     x.revision == revision && x.action == G.Apply && x.changes == cs && |x.previous| == |cs|
                     && forall i :: 0 <= i < |cs| ==> x.previous[i].key == cs[i].key
                                                      && x.previous[i].on == Lookup(a.cat.admitted, cs[i].key))
      else t == a
    ensures
      var (t, ok) := UndoStep(a, revision, stamp);
      if ok then |t.audits| == |a.audits| + 1 && t.audits[..|a.audits|] == a.audits && revision != ""
                 && (var x := t.audits[|a.audits|];
                     x.revision == stamp && x.action == G.Undo && x.previous == []
                     && G.FindApply(a.audits, revision) == Some(x.changes))
      else t == a
  {
  }

  /** A list is carried out change by change, each as an admission of its own key. */
  lemma ChangesInOrder(cat: Cat, p: string, id: string, on: bool, rest: seq<G.Change>)
    requires SlashFree(p)
    ensures AdmitAll(cat, [G.Change(p + "/" + id, on)] + rest) == AdmitAll(SetAdmitted(cat, p, id, on), rest)
    ensures AdmitAll(cat, []) == cat
  {
    SplitRouteKey(p, id);
    assert RouteKey(p, id) == p + "/" + id;
    assert ([G.Change(p + "/" + id, on)] + rest)[1..] == rest;
  }
}
