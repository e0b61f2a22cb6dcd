/** What the catalog operations write on an entry, value by value (`internal/catalog/sync.go`,
    `internal/catalog/manager.go`, `internal/catalog/reviewer_restore.go`).  The lemmas speak in
    plain values, so that nothing here depends on how the functions of `Catalog` are put together. */
module CatalogEntries {
  import opened Keys
  import opened CatalogModel
  import opened Catalog

  // ---------------------------------------------------------------- names

  /** The names that stand for no model of their own. */
  lemma MetaNames(id: string)
    ensures IsMeta(id) <==>
      (id == "auto" || id == "fusion" || id == "compound" || id == "router" || id == "routing" || id == "subagent"
       || id == "sub_agent" || id == "browser_use" || id == "fallback" || id == "aggregator")
  {
  }

  lemma FreeProviderName(p: string)
    ensures IsAutoApprovedProvider(p) <==> p == "freellmapi"
  {
  }

  /** The white space of Unicode, by code point. */
  lemma SpaceIs(c: char)
    ensures IsSpace(c) <==>
      var n := c as int;
      n == 0x20 || 9 <= n <= 13 || n == 0x85 || n == 0xA0 || n == 0x1680 || 0x2000 <= n <= 0x200A
      || n == 0x2028 || n == 0x2029 || n == 0x202F || n == 0x205F || n == 0x3000
  {
  }

  predicate AllSpace(s: string) { forall i :: 0 <= i < |s| ==> IsSpace(s[i]) }

  lemma {:induction false} LeftTrimmed(front: string, s: string)
    requires AllSpace(front)
    ensures TrimLeft(front + s) == TrimLeft(s)
  {
    if front == "" {
      assert front + s == s;
    } else {
      assert (front + s)[1..] == front[1..] + s;
      LeftTrimmed(front[1..], s);
    }
  }

  lemma {:induction false} RightTrimmed(s: string, back: string)
    requires AllSpace(back)
    ensures TrimRight(s + back) == TrimRight(s)
  {
    if back == "" {
      assert s + back == s;
    } else {
      var n := |back| - 1;
      assert (s + back)[..|s + back| - 1] == s + back[..n];
      RightTrimmed(s, back[..n]);
    }
  }

  /** Trimming takes off the white space on both sides and nothing else. */
  lemma TrimsBothSides(front: string, core: string, back: string)
    requires AllSpace(front) && AllSpace(back) && TrimmedId(core)
    ensures TrimSpace(front + core + back) == core
  {
    assert front + core + back == front + (core + back);
    LeftTrimmed(front, core + back);
    if core == "" {
      assert core + back == back && back == back + "";
      LeftTrimmed(back, "");
    } else {
      assert (core + back)[0] == core[0];
      RightTrimmed(core, back);
    }
  }

  /** Bytes in UTF-8: those of the parts, one to four for a character. */
  lemma {:induction false} BytesOfParts(a: string, b: string)
    ensures Utf8Length(a + b) == Utf8Length(a) + Utf8Length(b)
  {
    if a == "" {
      assert a + b == b;
    } else {
      assert (a + b)[1..] == a[1..] + b;
      BytesOfParts(a[1..], b);
    }
  }

  lemma BytesOfOne(c: char)
    ensures
      var n := c as int;
      && (n < 0x80 ==> Utf8Length([c]) == 1) && (0x80 <= n < 0x800 ==> Utf8Length([c]) == 2)
      && (0x800 <= n < 0x1_0000 ==> Utf8Length([c]) == 3) && (n >= 0x1_0000 ==> Utf8Length([c]) == 4)
  {
    assert [c][1..] == "";
  }

  /** An ASCII name has as many bytes as characters. */
  lemma {:induction false} AsciiBytes(s: string)
    requires forall i :: 0 <= i < |s| ==> s[i] as int < 0x80
    ensures Utf8Length(s) == |s|
  {
    if s != "" {
      AsciiBytes(s[1..]);
    }
  }

  // ---------------------------------------------------------------- listing

  /** The identifiers a sync takes. */
  predicate Takeable(id: string) {
    && id != "" && Utf8Length(id) <= 300
    && (forall i :: 0 <= i < |id| ==> id[i] as int != 13 && id[i] as int != 10 && id[i] as int != 0)
    && id != "auto" && id != "fusion" && id != "compound" && id != "router" && id != "routing" && id != "subagent"
    && id != "sub_agent" && id != "browser_use" && id != "fallback" && id != "aggregator"
  }

  lemma TakeableIsUsable(x: RawModel)
    ensures Usable(x) <==> Takeable(TrimSpace(x.id))
  {
    MetaNames(TrimSpace(x.id));
  }

  /** `m` is what `x` is listed as by a provider, field by field: active when it is admitted, on
      the routes when it is allowed besides or comes from FreeLLMAPI, without evidence or score. */
  predicate ListedAs(p: string, x: RawModel, allow: map<string, bool>, admitted: map<string, bool>, m: Model) {
    && m.id == TrimSpace(x.id) && m.provider == p
    && (m.admitted <==> p == "freellmapi" || Lookup(admitted, p + "/" + x.id))
    && (m.autoRoutable <==> p == "freellmapi" || (Lookup(admitted, p + "/" + x.id) && Lookup(allow, p + "/" + x.id)))
    && m.status == (if m.admitted then Active else Unknown)
    && m.contextWindow == (if 0 <= x.context <= 10_000_000 then x.context else 0)
    && m.tools == x.tools && m.vision == x.vision && m.structuredOutput == (x.structuredOutput || x.jsonMode)
    && m.structuredOutputKnown == (x.structuredOutputKnown || x.structuredOutput || x.jsonMode)
    && !m.parallelTools && !m.thinkingBlocks && m.capabilities == [] && m.evidence == map[] && m.score == 0
    && !m.orphaned
  }

  /** A list is made entry by entry: one is left out if and only if its trimmed identifier cannot
      be taken, and otherwise carries what it says and what the gates say. */
  lemma ListedOneMore(p: string, raw: seq<RawModel>, x: RawModel, allow: map<string, bool>, admitted: map<string, bool>)
    ensures
      var before, after := Listed(p, raw, allow, admitted), Listed(p, raw + [x], allow, admitted);
      if Takeable(TrimSpace(x.id))
      then |after| == |before| + 1 && after[..|before|] == before && ListedAs(p, x, allow, admitted, after[|before|])
      else after == before
  {
    assert (raw + [x])[..|raw|] == raw;
    TakeableIsUsable(x);
    MetaNames(TrimSpace(x.id));
    FreeProviderName(p);
    var before, after := Listed(p, raw, allow, admitted), Listed(p, raw + [x], allow, admitted);
    assert UsableOf(raw + [x]) == UsableOf(raw) + (if Usable(x) then [x] else []);
    if Usable(x) {
      assert after[..|before|] == before;
      assert after[|before|] == FromRaw(p, x, allow, admitted);
    } else {
      assert after == before;
    }
  }

  /** So a model is listed if and only if some entry has its identifier, and it can be taken. */
  lemma {:induction false} ListsIff(p: string, raw: seq<RawModel>, allow: map<string, bool>, admitted: map<string, bool>,
                                    id: string)
    ensures (exists m :: m in Listed(p, raw, allow, admitted) && m.id == id)
       <==> Takeable(id) && exists x :: x in raw && TrimSpace(x.id) == id
  {
    if raw != [] {
      var init, x := raw[..|raw| - 1], raw[|raw| - 1];
      assert raw == init + [x];
      ListsIff(p, init, allow, admitted, id);
      ListedOneMore(p, init, x, allow, admitted);
      var before, after := Listed(p, init, allow, admitted), Listed(p, raw, allow, admitted);
      if Takeable(TrimSpace(x.id)) {
        assert after == before + [after[|before|]];
      }
      if m :| m in before && m.id == id {
        assert m in after;
      }
    }
  }

  // ---------------------------------------------------------------- syncing

  /** The entry before it that a listed model is merged with is the last of its identifier. */
  lemma LastOneCounts(models: seq<Model>, m: Model, p: string, id: string)
    ensures LastWith(models + [m], p, id) == if m.provider == p && m.id == id then Some(m) else LastWith(models, p, id)
    ensures LastWith([], p, id) == None
  {
    assert (models + [m])[..|models|] == models;
  }

  /** A model seen for the first time is filed as it is listed; one seen before keeps its
      evidence and its structured-output flags and gains tools and vision, nothing else. */
  lemma CarriedOver(m: Model, o: Model)
    ensures Carry(m, None) == m
    ensures
      var r := Carry(m, Some(o));
      && r.evidence == o.evidence && r.structuredOutput == o.structuredOutput
      && r.structuredOutputKnown == o.structuredOutputKnown
      && (r.tools <==> o.tools || m.tools) && (r.vision <==> o.vision || m.vision) && !r.orphaned
      && r.id == m.id && r.provider == m.provider && r.status == m.status && r.autoRoutable == m.autoRoutable
      && r.admitted == m.admitted && r.capabilities == m.capabilities && r.contextWindow == m.contextWindow
      && r.parallelTools == m.parallelTools && r.thinkingBlocks == m.thinkingBlocks && r.score == m.score
  {
  }

  /** An accepted sync notes its time, a rejected one does not; it is rejected from ten models
      on, when fewer than half of them are left. */
  lemma SyncIsNoted(cat: Cat, p: string, raw: seq<RawModel>, now: Time, allow: map<string, bool>,
                    admitted: map<string, bool>)
    ensures
      var (after, rejected) := SyncWith(cat, p, raw, now, allow, admitted);
      var present, listed := |cat.models| - |Others(cat.models, p)|, |Listed(p, raw, allow, admitted)|;
      && (rejected <==> present >= 10 && 2 * listed < present)
      && (rejected ==> after == cat)
      && (!rejected ==> after.last == cat.last[p := now] && after.allow == cat.allow && after.admitted == cat.admitted
                        && |after.models| == |Others(cat.models, p)| + listed)
  {
  }

  // ---------------------------------------------------------------- gates

  predicate IsEntry(m: Model, p: string, id: string) { m.provider == p && m.id == id }

  /** An admission takes its entries off the routes and makes an unknown one active, but for meta names; a
      revocation puts an active one back to unknown; both gates of its key follow, and those of
      FreeLLMAPI models change in the maps alone. */
  lemma AdmissionWrites(cat: Cat, p: string, id: string, on: bool, i: nat)
    requires i < |cat.models|
    ensures
      var after := SetAdmitted(cat, p, id, on);
      && |after.models| == |cat.models|
      && (!IsEntry(cat.models[i], p, id) || p == "freellmapi" ==> after.models[i] == cat.models[i])
      && (IsEntry(cat.models[i], p, id) && p != "freellmapi" ==>
            var m, r := cat.models[i], after.models[i];
            && r == m.(admitted := on, autoRoutable := false, status := r.status)
            && (on ==> r.status == if m.status == Unknown && !IsMeta(id) then Active else m.status)
            && (!on ==> r.status == if m.status == Active then Unknown else m.status))
      && after.admitted == cat.admitted[p + "/" + id := on] && after.last == cat.last
      && after.allow == (if on then cat.allow else cat.allow[p + "/" + id := false])
  {
    FreeProviderName(p);
  }

  /** Evidence of a running probe, at the level of the protocol. */
  predicate ProbedFor(m: Model, c: string) {
    c in m.evidence && m.evidence[c].source == "runtime_probe" && m.evidence[c].level == "protocol"
  }

  /** What makes an entry ready for approval: it comes from FreeLLMAPI, or it is admitted, active,
      no meta name, and probed for structured output, for tools and for vision. */
  predicate ReadyEntry(m: Model) {
    m.provider == "freellmapi"
    || (m.admitted && m.status == Active && !IsMeta(m.id)
        && ProbedFor(m, "structured_output") && ProbedFor(m, "tools") && ProbedFor(m, "vision"))
  }

  lemma ReadyIff(m: Model)
    ensures AutoApprovalReady(m) <==> ReadyEntry(m)
  {
    FreeProviderName(m.provider);
    assert PROBED[0] == "structured_output" && PROBED[1] == "tools" && PROBED[2] == "vision" && |PROBED| == 3;
    assert forall c :: c in PROBED <==> c == PROBED[0] || c == PROBED[1] || c == PROBED[2];
  }

  /** An approval or its withdrawal is refused for a model that is not there, and an approval for
      one that is not ready; otherwise it sets the gate, and the route of the first entry follows
      it while the entry is active. */
  lemma ApprovalWrites(cat: Cat, p: string, id: string, on: bool, i: nat)
    requires i < |cat.models| && IsEntry(cat.models[i], p, id)
    requires forall j :: 0 <= j < i ==> !IsEntry(cat.models[j], p, id)
    ensures
      var (after, ok) := SetAllow(cat, p, id, on);
      var m := cat.models[i];
      && (ok <==> !on || ReadyEntry(m))
      && (!ok ==> after == cat)
      && (ok ==> after == Cat(cat.models[i := m.(autoRoutable := on && m.status == Active)],
                              cat.allow[p + "/" + id := on], cat.admitted, cat.last))
  {
    ReadyIff(cat.models[i]);
    FirstIs(cat.models, p, id, i);
  }

  lemma FirstIs(models: seq<Model>, p: string, id: string, i: nat)
    requires i < |models| && IsEntry(models[i], p, id) && forall j :: 0 <= j < i ==> !IsEntry(models[j], p, id)
    ensures IndexOf(models, p, id) == i
  {
    var k := IndexOf(models, p, id);
    assert k < |models| ==> IsEntry(models[k], p, id);
  }

  lemma NothingToApprove(cat: Cat, p: string, id: string, on: bool)
    requires forall i :: 0 <= i < |cat.models| ==> !IsEntry(cat.models[i], p, id)
    ensures SetAllow(cat, p, id, on) == (cat, false)
  {
  }

  /** A provider that is gone leaves its entries stale, orphaned and off the routes; one that is
      back gets its orphaned entries as unknown ones; every other entry, both gates and the
      admission of all entries stay. */
  lemma ReconciliationWrites(cat: Cat, online: set<string>, i: nat)
    requires i < |cat.models|
    ensures
      var after := Reconcile(cat, online);
      var m, r := cat.models[i], after.models[i];
      && |after.models| == |cat.models| && after == cat.(models := after.models)
      && (m.provider !in online ==> r == m.(status := Stale, autoRoutable := false, orphaned := true))
      && (m.provider in online && m.orphaned && m.status == Stale ==>
            r == m.(status := Unknown, autoRoutable := false, orphaned := false))
      && (m.provider in online && !(m.orphaned && m.status == Stale) ==> r == m)
  {
  }

  /** What a migration makes of an entry that is neither meta, nor stale, nor orphaned. */
  predicate MigratesTo(m: Model, free: bool, listed: bool, r: Model) {
    && r == m.(status := r.status, admitted := free || listed, autoRoutable := r.autoRoutable)
    && r.status == (if (free || listed) && m.status == Unknown then Active else m.status)
    && (r.autoRoutable <==> free && (m.autoRoutable || m.status == Unknown || m.status == Active))
  }

  lemma FreeEntryOpens(m: Model, listed: bool)
    ensures MigratesTo(m, true, listed, Opened(m))
  {
  }

  lemma OtherEntryCloses(m: Model, listed: bool)
    ensures MigratesTo(m, false, listed, OffRoutes(m, listed))
  {
  }

  lemma EntryMigrates(m: Model, listed: bool)
    ensures MigratesTo(m, m.provider == "freellmapi", listed, Gated(m, listed))
  {
    FreeProviderName(m.provider);
    FreeEntryOpens(m, listed);
    OtherEntryCloses(m, listed);
  }

  /** The migration leaves meta, stale and orphaned entries alone; it opens both gates of a
      FreeLLMAPI entry; and it takes every other entry off the routes and admits it exactly as
      the entry or the map says, an unknown one becoming active. */
  lemma MigrationWrites(cat: Cat, i: nat)
    requires i < |cat.models|
    ensures
      var after := Migrate(cat);
      var m, r := cat.models[i], after.models[i];
      var listed := m.admitted || Lookup(cat.admitted, m.provider + "/" + m.id);
      && |after.models| == |cat.models| && after == cat.(models := after.models)
      && (if IsMeta(m.id) || m.status == Stale || m.orphaned then r == m
          else MigratesTo(m, m.provider == "freellmapi", listed, r))
  {
    var m := cat.models[i];
    EntryMigrates(m, m.admitted || Lookup(cat.admitted, m.provider + "/" + m.id));
  }

  /** A finished probe puts its evidence on top of what was there and sets the three flags it was
      given; a remembered reviewer gets its structured output back while it is on the routes. */
  lemma ProbeWrites(m: Model, results: map<string, Evidence>, structured: bool, tools: bool, vision: bool, need: string)
    ensures
      var r := Probed(m, results, structured, tools, vision);
      && (need in r.evidence <==> need in results || need in m.evidence)
      && (need in results ==> r.evidence[need] == results[need])
      && (need !in results && need in m.evidence ==> r.evidence[need] == m.evidence[need])
      && r.structuredOutput == structured && r.structuredOutputKnown && r.tools == tools && r.vision == vision
      && r.status == m.status && r.admitted == m.admitted && r.autoRoutable == m.autoRoutable
      && r.parallelTools == m.parallelTools && r.thinkingBlocks == m.thinkingBlocks
  {
  }

  lemma ReviewerWrites(m: Model)
    ensures
      var r := ReviewerRestored(m);
      && (m.status == Active && m.autoRoutable ==>
            r == m.(structuredOutput := true, structuredOutputKnown := true, evidence := r.evidence)
            && r.evidence == m.evidence["structured_output" := Evidence(true, "persisted reviewer selection", "selection")])
      && (m.status != Active || !m.autoRoutable ==> r == m)
  {
  }

  /** The public model list shows what is admitted, on the routes, active and no meta name. */
  lemma PublishedIff(m: Model)
    ensures Published(m) <==>
      m.admitted && m.autoRoutable && m.status == Active && !IsMeta(m.id)
  {
  }

  /** What a model answers without evidence: its flag, or for other needs its list. */
  lemma AnswerOf(m: Model, need: string)
    ensures need in m.evidence ==> (Supports(m, need) <==> m.evidence[need].supported)
    ensures "tools" !in m.evidence ==> (Supports(m, "tools") <==> m.tools)
    ensures "vision" !in m.evidence ==> (Supports(m, "vision") <==> m.vision)
    ensures "structured_output" !in m.evidence ==> (Supports(m, "structured_output") <==> m.structuredOutput)
    ensures "parallel_tools" !in m.evidence ==> (Supports(m, "parallel_tools") <==> m.parallelTools)
    ensures "thinking_blocks" !in m.evidence ==> (Supports(m, "thinking_blocks") <==> m.thinkingBlocks)
    ensures need !in m.evidence
            && need !in {"tools", "vision", "structured_output", "parallel_tools", "thinking_blocks"} ==>
      (Supports(m, need) <==> need in m.capabilities)
  {
  }
}
