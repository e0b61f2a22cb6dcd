/** What one sync does to the catalog (`SyncRaw`), and the two ways in which a sync can
    defeat the gates when it is not given what it relies on. */
module CatalogSync {
  import opened Keys
  import opened CatalogModel
  import opened Catalog
  import opened CatalogRuns

  lemma OthersOne(a: seq<Model>, m: Model, p: string)
    ensures Others(a + [m], p) == Others(a, p) + (if m.provider != p then [m] else [])
  {
    assert (a + [m])[..|a|] == a;
  }

  lemma {:induction false} OthersConcat(a: seq<Model>, b: seq<Model>, p: string)
    ensures Others(a + b, p) == Others(a, p) + Others(b, p)
  {
    if b == [] {
      assert a + b == a;
    } else {
      var first, last := b[..|b| - 1], b[|b| - 1];
      assert b == first + [last] && a + b == (a + first) + [last];
      OthersConcat(a, first, p);
      OthersOne(a + first, last, p);
      OthersOne(first, last, p);
    }
  }

  lemma {:induction false} OthersOfOthers(a: seq<Model>, p: string)
    requires forall i :: 0 <= i < |a| ==> a[i].provider != p
    ensures Others(a, p) == a
  {
    if a != [] {
      OthersOfOthers(a[..|a| - 1], p);
      assert a == a[..|a| - 1] + [a[|a| - 1]];
    }
  }

  lemma {:induction false} OthersOfOwn(a: seq<Model>, p: string)
    requires forall i :: 0 <= i < |a| ==> a[i].provider == p
    ensures Others(a, p) == []
  {
    if a != [] {
      OthersOfOwn(a[..|a| - 1], p);
    }
  }

  lemma {:induction false} OthersElsewhere(models: seq<Model>, p: string)
    ensures forall i :: 0 <= i < |Others(models, p)| ==> Others(models, p)[i].provider != p
  {
    if models != [] {
      OthersElsewhere(models[..|models| - 1], p);
    }
  }

  lemma FiledBehind(models: seq<Model>, next: seq<Model>, p: string)
    requires forall i :: 0 <= i < |next| ==> next[i].provider == p
    ensures Others(Others(models, p) + next, p) == Others(models, p)
    ensures CountOf(Others(models, p) + next, p) == |next|
  {
    var keep := Others(models, p);
    OthersElsewhere(models, p);
    OthersConcat(keep, next, p);
    OthersOfOthers(keep, p);
    OthersOfOwn(next, p);
  }

  lemma NextListShape(cat: Cat, p: string, raw: seq<RawModel>, allow: map<string, bool>, admitted: map<string, bool>)
    ensures |NextList(cat, p, raw, allow, admitted)| == |UsableOf(raw)|
    ensures forall i :: 0 <= i < |UsableOf(raw)| ==>
      var m := NextList(cat, p, raw, allow, admitted)[i];
      m.provider == p && m.id == TrimSpace(UsableOf(raw)[i].id)
  {
  }

  /** A sync touches nothing of any other provider; a rejected one changes nothing at all,
      and an accepted one of a provider with ten models or more keeps at least half of them.
      The new list is filed behind the other providers' models. */
  lemma SyncIsolation(cat: Cat, p: string, raw: seq<RawModel>, now: Time)
    ensures
      var (after, rejected) := Sync(cat, p, raw, now);
      && Others(after.models, p) == Others(cat.models, p)
      && after.allow == cat.allow && after.admitted == cat.admitted
      && (rejected ==> after == cat)
      && (rejected <==> CountOf(cat.models, p) >= 10 && 2 * |UsableOf(raw)| < CountOf(cat.models, p))
      && (!rejected ==> CountOf(after.models, p) == |UsableOf(raw)|)
      && (CountOf(cat.models, p) >= 10 ==> 2 * CountOf(after.models, p) >= CountOf(cat.models, p))
  {
    NextListShape(cat, p, raw, cat.allow, cat.admitted);
    FiledBehind(cat.models, NextList(cat, p, raw, cat.allow, cat.admitted), p);
  }

  lemma {:induction false} LastWithIs(models: seq<Model>, p: string, id: string, i: nat)
    requires i < |models| && models[i].provider == p && models[i].id == id
    requires forall j :: 0 <= j < |models| && models[j].provider == p && models[j].id == id ==> j == i
    ensures LastWith(models, p, id) == Some(models[i])
  {
    var n := |models| - 1;
    if i < n {
      assert models[..n][i] == models[i];
      LastWithIs(models[..n], p, id, i);
    }
  }

  /** A model that survives a sync answers every capability question it has evidence for as
      before, keeps its structured-output flag, and loses no declared tool or vision flag. */
  lemma SurvivorsKeepEvidence(cat: Cat, p: string, raw: seq<RawModel>, now: Time, i: nat, j: nat, need: string)
    requires Good(cat) && i < |cat.models| && cat.models[i].provider == p
    requires var (after, rejected) := Sync(cat, p, raw, now);
      !rejected && j < |after.models| && after.models[j].provider == p && after.models[j].id == cat.models[i].id
    ensures
      var o, m := cat.models[i], Sync(cat, p, raw, now).0.models[j];
      && m.evidence == o.evidence && m.structuredOutput == o.structuredOutput
      && (o.tools ==> m.tools) && (o.vision ==> m.vision)
      && (need in o.evidence ==> (Supports(m, need) <==> Supports(o, need)))
  {
    var o := cat.models[i];
    SurvivorEntry(cat, p, i);
    var keep := Others(cat.models, p);
    var next := NextList(cat, p, raw, cat.allow, cat.admitted);
    assert Sync(cat, p, raw, now).0.models == keep + next;
    OthersElsewhere(cat.models, p);
    assert forall k :: 0 <= k < |keep| ==> (keep + next)[k] == keep[k];
    assert (keep + next)[j] == next[j - |keep|];
  }

  /** What a survivor answers after a sync, by the entry before it and the new listing. */
  predicate SurvivorSays(o: Model, x: RawModel, need: string) {
    if need in o.evidence then o.evidence[need].supported
    else if need == "tools" then o.tools || x.tools
    else if need == "vision" then o.vision || x.vision
    else need == "structured_output" && o.structuredOutput
  }

  /** A sync leaves the answer alone: there is evidence, or it adds no tool or vision flag, or
      there was no parallel-tools flag, thinking flag or named capability to lose. */
  predicate AnswerStays(o: Model, x: RawModel, need: string) {
    need in o.evidence
    || (if need == "tools" then o.tools || !x.tools
        else if need == "vision" then o.vision || !x.vision
        else if need == "structured_output" then true
        else if need == "parallel_tools" then !o.parallelTools
        else if need == "thinking_blocks" then !o.thinkingBlocks
        else need !in o.capabilities)
  }

  /** `m` is what a sync makes of `o` when `x` lists it. */
  predicate Survives(o: Model, x: RawModel, m: Model) {
    && m.evidence == o.evidence && m.capabilities == [] && m.structuredOutput == o.structuredOutput
    && m.tools == (o.tools || x.tools) && m.vision == (o.vision || x.vision)
    && !m.parallelTools && !m.thinkingBlocks
  }

  lemma SurvivorSaysIff(o: Model, x: RawModel, m: Model, need: string)
    requires Survives(o, x, m)
    ensures Supports(m, need) <==> SurvivorSays(o, x, need)
    ensures (Supports(m, need) <==> Supports(o, need)) <==> AnswerStays(o, x, need)
  {
  }

  lemma CarrySurvives(cat: Cat, p: string, x: RawModel, o: Model)
    ensures Survives(o, x, Carry(FromRaw(p, x, cat.allow, cat.admitted), Some(o)))
  {
  }

  /** The entry of a survivor is the last, and the only, one with its key. */
  lemma SurvivorEntry(cat: Cat, p: string, i: nat)
    requires Good(cat) && i < |cat.models| && cat.models[i].provider == p
    ensures LastWith(cat.models, p, cat.models[i].id) == Some(cat.models[i])
  {
    forall h | 0 <= h < |cat.models| && cat.models[h].provider == p && cat.models[h].id == cat.models[i].id
      ensures h == i
    {
      assert KeyOf(cat.models[h]) == KeyOf(cat.models[i]);
    }
    LastWithIs(cat.models, p, cat.models[i].id, i);
  }

  lemma NextAt(cat: Cat, p: string, raw: seq<RawModel>, k: nat)
    requires k < |UsableOf(raw)|
    ensures
      var next := NextList(cat, p, raw, cat.allow, cat.admitted);
      var listed := FromRaw(p, UsableOf(raw)[k], cat.allow, cat.admitted);
      && k < |next| && next[k] == Carry(listed, LastWith(cat.models, p, listed.id))
      && listed.id == TrimSpace(UsableOf(raw)[k].id)
  {
  }

  /** Where the new list is filed. */
  lemma FiledAt(cat: Cat, p: string, raw: seq<RawModel>, now: Time, k: nat)
    requires k < |UsableOf(raw)| && !Sync(cat, p, raw, now).1
    ensures
      var after, j := Sync(cat, p, raw, now).0.models, |Others(cat.models, p)| + k;
      j < |after| && after[j] == NextList(cat, p, raw, cat.allow, cat.admitted)[k]
  {
    var keep, next := Others(cat.models, p), NextList(cat, p, raw, cat.allow, cat.admitted);
    assert (keep + next)[|keep| + k] == next[k];
  }

  /** After a sync a survivor supports exactly what its evidence, its old flags and the new
      listing say, and it answers as before if and only if the answer stays: the parallel-tools
      and thinking flags and the named capabilities are lost. */
  lemma SurvivorAnswersIff(cat: Cat, p: string, raw: seq<RawModel>, now: Time, i: nat, k: nat, need: string)
    requires Good(cat) && i < |cat.models| && cat.models[i].provider == p
    requires k < |UsableOf(raw)| && TrimSpace(UsableOf(raw)[k].id) == cat.models[i].id && !Sync(cat, p, raw, now).1
    ensures
      var o, x, after, j := cat.models[i], UsableOf(raw)[k], Sync(cat, p, raw, now).0.models, |Others(cat.models, p)| + k;
      && j < |after| && after[j].provider == p && after[j].id == o.id
      && (Supports(after[j], need) <==> SurvivorSays(o, x, need))
      && ((Supports(after[j], need) <==> Supports(o, need)) <==> AnswerStays(o, x, need))
  {
    SurvivorEntry(cat, p, i);
    FiledAt(cat, p, raw, now, k);
    NextAt(cat, p, raw, k);
    NextListShape(cat, p, raw, cat.allow, cat.admitted);
    CarrySurvives(cat, p, UsableOf(raw)[k], cat.models[i]);
    SurvivorSaysIff(cat.models[i], UsableOf(raw)[k], Sync(cat, p, raw, now).0.models[|Others(cat.models, p)| + k], need);
  }

  lemma {:induction false} LastWithConcat(a: seq<Model>, b: seq<Model>, p: string, id: string)
    requires forall i :: 0 <= i < |a| ==> a[i].provider != p
    ensures LastWith(a + b, p, id) == LastWith(b, p, id)
  {
    if b == [] {
      assert a + b == a;
      NoneWith(a, p, id);
    } else {
      var n := |b| - 1;
      assert (a + b)[..|a| + n] == a + b[..n];
      LastWithConcat(a, b[..n], p, id);
    }
  }

  lemma {:induction false} NoneWith(a: seq<Model>, p: string, id: string)
    requires forall i :: 0 <= i < |a| ==> a[i].provider != p
    ensures LastWith(a, p, id) == None
  {
    if a != [] {
      NoneWith(a[..|a| - 1], p, id);
    }
  }

  lemma CarryIsIdempotent(m: Model, prev: Option<Model>)
    requires !m.orphaned
    ensures Carry(m, Some(Carry(m, prev))) == Carry(m, prev)
  {
  }

  lemma CarriedAgain(cat: Cat, p: string, raw: seq<RawModel>)
    requires SlashFree(p) && DistinctIds(raw)
    ensures
      var next := NextList(cat, p, raw, cat.allow, cat.admitted);
      Carried(Others(cat.models, p) + next, p, Listed(p, raw, cat.allow, cat.admitted)) == next
  {
    var keep := Others(cat.models, p);
    var listed := Listed(p, raw, cat.allow, cat.admitted);
    var next := NextList(cat, p, raw, cat.allow, cat.admitted);
    NextListShape(cat, p, raw, cat.allow, cat.admitted);
    OthersElsewhere(cat.models, p);
    forall i | 0 <= i < |next| ensures Carried(keep + next, p, listed)[i] == next[i] {
      LastWithConcat(keep, next, p, listed[i].id);
      LastWithIs(next, p, listed[i].id, i);
      CarryIsIdempotent(listed[i], LastWith(cat.models, p, listed[i].id));
    }
  }

  /** A sync that files the list that is there already changes nothing. */
  lemma SameListAgain(cat: Cat, p: string, raw: seq<RawModel>, now: Time, next: seq<Model>)
    requires cat.models == Others(cat.models, p) + next && next == NextList(cat, p, raw, cat.allow, cat.admitted)
    requires CountOf(cat.models, p) == |next| && cat.last == cat.last[p := now]
    ensures Sync(cat, p, raw, now).0 == cat
  {
  }

  lemma FiledAgain(cat: Cat, p: string, raw: seq<RawModel>, now: Time, once: Cat)
    requires SlashFree(p) && DistinctIds(raw)
    requires once == cat.(models := Others(cat.models, p) + NextList(cat, p, raw, cat.allow, cat.admitted),
                          last := cat.last[p := now])
    ensures Sync(once, p, raw, now).0 == once
  {
    var next := NextList(cat, p, raw, cat.allow, cat.admitted);
    NextListShape(cat, p, raw, cat.allow, cat.admitted);
    FiledBehind(cat.models, next, p);
    CarriedAgain(cat, p, raw);
    SameListAgain(once, p, raw, now, next);
  }

  /** Repeating a sync changes nothing (the state has no timestamps but the given `now`). */
  lemma SyncIsIdempotent(cat: Cat, p: string, raw: seq<RawModel>, now: Time)
    requires SlashFree(p) && DistinctIds(raw)
    ensures var once := Sync(cat, p, raw, now).0; Sync(once, p, raw, now).0 == once
  {
    var (once, rejected) := Sync(cat, p, raw, now);
    if !rejected {
      FiledAgain(cat, p, raw, now, once);
    }
  }

  // ---------------------------------------------------------------- where the gates can be defeated

  /** A routable model outside FreeLLMAPI whose allow gate is closed. */
  ghost predicate Escaped(cat: Cat, p: string, id: string) {
    !IsAutoApprovedProvider(p) && !Lookup(cat.allow, RouteKey(p, id)) && Routes(cat, p, id)
  }

  /** A listed model with both snapshots open is filed routable. */
  lemma FiledOpen(cat: Cat, p: string, raw: seq<RawModel>, now: Time,
                  allow: map<string, bool>, admitted: map<string, bool>, id: string, i: nat)
    requires Lookup(admitted, RouteKey(p, id)) && Lookup(allow, RouteKey(p, id)) && TrimmedId(id)
    requires i < |UsableOf(raw)| && UsableOf(raw)[i].id == id
    ensures
      var (after, rejected) := SyncWith(cat, p, raw, now, allow, admitted);
      !rejected ==>
        Open(after.models, |Others(cat.models, p)| + i, p, id)
  {
    UsableMembers(raw);
    assert UsableOf(raw)[i] in UsableOf(raw);
    var next := NextList(cat, p, raw, allow, admitted);
    assert (Others(cat.models, p) + next)[|Others(cat.models, p)| + i] == next[i];
  }

  /** A sync that listed models before an approval was withdrawn, and files them after,
      makes the model routable again behind a closed gate. */
  lemma LateSyncEscapes(cat: Cat, p: string, raw: seq<RawModel>, now: Time, id: string, i: nat)
    requires !IsAutoApprovedProvider(p) && IndexOf(cat.models, p, id) < |cat.models|
    requires Lookup(cat.admitted, RouteKey(p, id)) && Lookup(cat.allow, RouteKey(p, id)) && TrimmedId(id)
    requires i < |UsableOf(raw)| && UsableOf(raw)[i].id == id
    ensures
      var withdrawn := SetAllow(cat, p, id, false).0;
      var (late, rejected) := SyncWith(withdrawn, p, raw, now, cat.allow, cat.admitted);
      !rejected ==> Escaped(late, p, id)
  {
    FiledOpen(SetAllow(cat, p, id, false).0, p, raw, now, cat.allow, cat.admitted, id, i);
  }

  predicate Open(models: seq<Model>, k: nat, p: string, id: string) {
    k < |models| && models[k].provider == p && models[k].id == id && models[k].autoRoutable
  }

  /** Of two open entries of one route, a withdrawal closes the gate and the first alone. */
  lemma FirstOnly(cat: Cat, p: string, id: string, h: nat, k: nat)
    requires h < k && Open(cat.models, h, p, id) && Open(cat.models, k, p, id) && !IsAutoApprovedProvider(p)
    ensures Escaped(SetAllow(cat, p, id, false).0, p, id)
  {
    FirstBefore(cat.models, p, id, h);
    assert SetAllow(cat, p, id, false).0.models[k] == cat.models[k];
  }

  /** Entry `i` of the usable list names a model that both gates open. */
  predicate ListsOpen(cat: Cat, p: string, raw: seq<RawModel>, id: string, i: nat) {
    Lookup(cat.admitted, RouteKey(p, id)) && Lookup(cat.allow, RouteKey(p, id)) && TrimmedId(id)
    && i < |UsableOf(raw)| && UsableOf(raw)[i].id == id
  }

  lemma FiledFrom(cat: Cat, synced: Cat, p: string, raw: seq<RawModel>, now: Time, id: string, i: nat)
    ensures ListsOpen(cat, p, raw, id, i) && Sync(cat, p, raw, now) == (synced, false)
            ==> Open(synced.models, |Others(cat.models, p)| + i, p, id)
  {
    if ListsOpen(cat, p, raw, id, i) {
      FiledOpen(cat, p, raw, now, cat.allow, cat.admitted, id, i);
    }
  }

  /** A list that names an open model twice files it twice, so that withdrawing the approval
      closes the gate and only one of the two entries. */
  lemma DuplicateIsFiledTwice(cat: Cat, synced: Cat, p: string, raw: seq<RawModel>, now: Time, id: string, i: nat, j: nat)
    requires Sync(cat, p, raw, now) == (synced, false)
    requires i < j && ListsOpen(cat, p, raw, id, i) && ListsOpen(cat, p, raw, id, j)
    ensures exists h, k :: h < k && Open(synced.models, h, p, id) && Open(synced.models, k, p, id)
  {
    FiledFrom(cat, synced, p, raw, now, id, i);
    FiledFrom(cat, synced, p, raw, now, id, j);
  }

  lemma DuplicateEscapes(cat: Cat, synced: Cat, p: string, raw: seq<RawModel>, now: Time, id: string, i: nat, j: nat)
    requires !IsAutoApprovedProvider(p) && Sync(cat, p, raw, now) == (synced, false)
    requires i < j && ListsOpen(cat, p, raw, id, i) && ListsOpen(cat, p, raw, id, j)
    ensures Escaped(SetAllow(synced, p, id, false).0, p, id)
  {
    DuplicateIsFiledTwice(cat, synced, p, raw, now, id, i, j);
    TwiceEscapes(synced, p, id);
  }

  lemma TwiceEscapes(cat: Cat, p: string, id: string)
    requires !IsAutoApprovedProvider(p)
    requires exists h, k :: h < k && Open(cat.models, h, p, id) && Open(cat.models, k, p, id)
    ensures Escaped(SetAllow(cat, p, id, false).0, p, id)
  {
    var h: nat, k: nat :| h < k && Open(cat.models, h, p, id) && Open(cat.models, k, p, id);
    FirstOnly(cat, p, id, h, k);
  }

  lemma FirstBefore(models: seq<Model>, p: string, id: string, k: nat)
    requires k < |models| && models[k].provider == p && models[k].id == id
    ensures IndexOf(models, p, id) <= k
  {
  }
}
