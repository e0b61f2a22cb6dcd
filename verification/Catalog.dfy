/** The two-gate catalog as functions on its state (`internal/catalog/manager.go`,
    `internal/catalog/sync.go`).  The class that updates the state in place is in
    `CatalogManager`; the runs are in `CatalogRuns`.  Timestamps and version strings are not
    part of the state, except the time of each provider's last sync. */
module Catalog {
  import opened Keys
  import opened CatalogModel

  datatype Cat = Cat(models: seq<Model>, allow: map<string, bool>, admitted: map<string, bool>,
                     last: map<string, Time>)

  /** `NewManagerWithState`: a saved state without an admission map predates the two gates;
      its approvals become admissions and nothing stays allowed. */
  function Restored(models: seq<Model>, allow: map<string, bool>, admitted: Option<map<string, bool>>,
                    last: map<string, Time>): Cat
  {
    match admitted
    case Some(a) => Cat(models, allow, a, last)
    case None => Cat(models, map k | k in allow && !allow[k] :: false, map k | k in allow && allow[k] :: true, last)
  }

  const EMPTY: Cat := Cat([], map[], map[], map[])

  // ---------------------------------------------------------------- identifiers

  predicate IsSpace(c: char) {
    c == ' ' || '\t' <= c <= '\r' || c == '\U{85}' || c == '\U{A0}' || c == '\U{1680}'
    || '\U{2000}' <= c <= '\U{200A}' || c == '\U{2028}' || c == '\U{2029}' || c == '\U{202F}'
    || c == '\U{205F}' || c == '\U{3000}'
  }

  function TrimLeft(s: string): (r: string)
    ensures r == "" || !IsSpace(r[0])
    ensures |r| <= |s|
  {
    if s != "" && IsSpace(s[0]) then TrimLeft(s[1..]) else s
  }

  function TrimRight(s: string): (r: string)
    ensures r == "" || !IsSpace(r[|r| - 1])
    ensures r <= s
  {
    if s != "" && IsSpace(s[|s| - 1]) then TrimRight(s[..|s| - 1]) else s
  }

  function TrimSpace(s: string): (r: string)
    ensures TrimmedId(r)
    ensures TrimmedId(s) ==> r == s
  {
    TrimRight(TrimLeft(s))
  }

  predicate TrimmedId(s: string) { s == "" || (!IsSpace(s[0]) && !IsSpace(s[|s| - 1])) }

  function Utf8Length(s: string): nat {
    if s == "" then 0
    else (if s[0] < '\U{80}' then 1 else if s[0] < '\U{800}' then 2 else if s[0] < '\U{10000}' then 3 else 4)
         + Utf8Length(s[1..])
  }

  // ---------------------------------------------------------------- sync

  datatype RawModel = RawModel(id: string, context: int, tools: bool, vision: bool,
                               structuredOutput: bool, jsonMode: bool, structuredOutputKnown: bool)

  predicate UsableId(id: string) {
    id != "" && Utf8Length(id) <= 300 && '\r' !in id && '\n' !in id && '\0' !in id && !IsMeta(id)
  }

  predicate Usable(x: RawModel) { UsableId(TrimSpace(x.id)) }

  /** The lookup key is built from the identifier as received, not from the trimmed one. */
  function RawKey(p: string, x: RawModel): string { RouteKey(p, x.id) }

  function FromRaw(p: string, x: RawModel, allow: map<string, bool>, admitted: map<string, bool>): Model {
    var id := TrimSpace(x.id);
    var isAdmitted := Lookup(admitted, RawKey(p, x)) || IsAutoApprovedProvider(p);
    var routable := !IsMeta(id) && (IsAutoApprovedProvider(p) || (isAdmitted && Lookup(allow, RawKey(p, x))));
    Model(id, p, if isAdmitted || routable then Active else Unknown, routable, isAdmitted,
          [], if x.context < 0 || x.context > 10_000_000 then 0 else x.context,
          x.tools, x.vision, x.structuredOutput || x.jsonMode,
          x.structuredOutputKnown || x.structuredOutput || x.jsonMode,
          false, false, map[], 0, false)
  }

  function UsableOf(raw: seq<RawModel>): seq<RawModel> {
    if raw == [] then []
    else UsableOf(raw[..|raw| - 1]) + (if Usable(raw[|raw| - 1]) then [raw[|raw| - 1]] else [])
  }

  /** `SyncService.Apply`. */
  function Listed(p: string, raw: seq<RawModel>, allow: map<string, bool>, admitted: map<string, bool>): (r: seq<Model>)
    ensures |r| == |UsableOf(raw)|
    ensures forall i :: 0 <= i < |r| ==> r[i] == FromRaw(p, UsableOf(raw)[i], allow, admitted)
  {
    var us := UsableOf(raw);
    seq(|us|, i requires 0 <= i < |us| => FromRaw(p, us[i], allow, admitted))
  }

  function LastWith(models: seq<Model>, p: string, id: string): Option<Model> {
    if models == [] then None
    else
      var m := models[|models| - 1];
      if m.provider == p && m.id == id then Some(m) else LastWith(models[..|models| - 1], p, id)
  }

  function Carry(m: Model, prev: Option<Model>): Model {
    match prev
    case None => m
    case Some(o) =>
      m.(orphaned := false, structuredOutput := o.structuredOutput,
         structuredOutputKnown := o.structuredOutputKnown, evidence := o.evidence,
         tools := o.tools || m.tools, vision := o.vision || m.vision)
  }

  function Carried(models: seq<Model>, p: string, next: seq<Model>): (r: seq<Model>)
    ensures |r| == |next|
    ensures forall i :: 0 <= i < |r| ==> r[i] == Carry(next[i], LastWith(models, p, next[i].id))
  {
    seq(|next|, i requires 0 <= i < |next| => Carry(next[i], LastWith(models, p, next[i].id)))
  }

  function Others(models: seq<Model>, p: string): (r: seq<Model>)
    ensures |r| <= |models|
  {
    if models == [] then []
    else Others(models[..|models| - 1], p) + (if models[|models| - 1].provider != p then [models[|models| - 1]] else [])
  }

  function CountOf(models: seq<Model>, p: string): nat { |models| - |Others(models, p)| }

  /** `SyncRaw` with the gate snapshots it took before the lock; the flag says that the drop
      guard rejected the new list. */
  function SyncWith(cat: Cat, p: string, raw: seq<RawModel>, now: Time,
                    allow: map<string, bool>, admitted: map<string, bool>): (Cat, bool)
  {
    var next := Carried(cat.models, p, Listed(p, raw, allow, admitted));
    var present := CountOf(cat.models, p);
    if present >= 10 && |next| * 2 < present then (cat, true)
    else (cat.(models := Others(cat.models, p) + next, last := cat.last[p := now]), false)
  }

  function Sync(cat: Cat, p: string, raw: seq<RawModel>, now: Time): (Cat, bool) {
    SyncWith(cat, p, raw, now, cat.allow, cat.admitted)
  }

  // ---------------------------------------------------------------- the other operations

  function MapModels(models: seq<Model>, f: Model -> Model): (r: seq<Model>)
    ensures |r| == |models| && forall i :: 0 <= i < |r| ==> r[i] == f(models[i])
  {
    seq(|models|, i requires 0 <= i < |models| => f(models[i]))
  }

  function IndexOf(models: seq<Model>, p: string, id: string): (i: nat)
    ensures i <= |models|
    ensures i < |models| ==> models[i].provider == p && models[i].id == id
    ensures forall j :: 0 <= j < i ==> !(models[j].provider == p && models[j].id == id)
  {
    if models == [] || (models[0].provider == p && models[0].id == id) then 0
    else 1 + IndexOf(models[1..], p, id)
  }

  function UpdateFirst(models: seq<Model>, p: string, id: string, f: Model -> Model): seq<Model> {
    var i := IndexOf(models, p, id);
    if i < |models| then models[i := f(models[i])] else models
  }

  function AdmitModel(m: Model, p: string, id: string, on: bool): Model {
    if m.provider != p || m.id != id || IsAutoApprovedProvider(p) then m
    else m.(admitted := on, autoRoutable := false,
            status := if on && m.status == Unknown && !IsMeta(id) then Active
                      else if !on && m.status == Active then Unknown else m.status)
  }

  function SetAdmitted(cat: Cat, p: string, id: string, on: bool): Cat {
    var key := RouteKey(p, id);
    cat.(admitted := cat.admitted[key := on],
         allow := if on then cat.allow else cat.allow[key := false],
         models := MapModels(cat.models, m => AdmitModel(m, p, id, on)))
  }

  const PROBED: seq<string> := ["structured_output", "tools", "vision"]

  predicate AutoApprovalReady(m: Model) {
    IsAutoApprovedProvider(m.provider)
    || (m.admitted && m.status == Active && !IsMeta(m.id)
        && forall c :: c in PROBED ==>
             c in m.evidence && m.evidence[c].source == "runtime_probe" && m.evidence[c].level == "protocol")
  }

  function SetAllow(cat: Cat, p: string, id: string, on: bool): (Cat, bool) {
    var i := IndexOf(cat.models, p, id);
    if i == |cat.models| || (on && !AutoApprovalReady(cat.models[i])) then (cat, false)
    else
      var m := cat.models[i];
      (cat.(allow := cat.allow[RouteKey(p, id) := on],
            models := cat.models[i := m.(autoRoutable := on && m.status == Active)]), true)
  }

  function ReconcileModel(m: Model, online: set<string>): Model {
    if m.provider !in online then m.(status := Stale, autoRoutable := false, orphaned := true)
    else if m.status == Stale && m.orphaned then m.(status := Unknown, autoRoutable := false, orphaned := false)
    else m
  }

  function Reconcile(cat: Cat, online: set<string>): Cat {
    cat.(models := MapModels(cat.models, m => ReconcileModel(m, online)))
  }

  /** A FreeLLMAPI model that passes both gates. */
  function Opened(m: Model): Model {
    var status := if m.status == Unknown then Active else m.status;
    m.(status := status, admitted := true, autoRoutable := m.autoRoutable || status == Active)
  }

  /** Any other model, with its admission and without its route. */
  function OffRoutes(m: Model, listed: bool): Model {
    m.(status := if listed && m.status == Unknown then Active else m.status, admitted := listed, autoRoutable := false)
  }

  /** A model the migration does not pass over. */
  function Gated(m: Model, listed: bool): (r: Model)
    ensures r.provider == m.provider && r.id == m.id
  {
    if IsAutoApprovedProvider(m.provider) then Opened(m) else OffRoutes(m, listed)
  }

  predicate PassedOver(m: Model) { IsMeta(m.id) || m.status == Stale || m.orphaned }

  /** `ApplyDefaultApprovalPolicy` on one model. */
  function MigrateModel(m: Model, admitted: map<string, bool>): Model {
    if PassedOver(m) then m else Gated(m, Lookup(admitted, KeyOf(m)) || m.admitted)
  }

  function Migrate(cat: Cat): Cat {
    cat.(models := MapModels(cat.models, m => MigrateModel(m, cat.admitted)))
  }

  function Update(cat: Cat, p: string, id: string, f: Model -> Model): Cat {
    cat.(models := UpdateFirst(cat.models, p, id, f))
  }

  /** The update of a finished capability probe (`internal/api/native_probe.go`). */
  function Probed(m: Model, results: map<string, Evidence>, structured: bool, tools: bool, vision: bool): Model {
    m.(evidence := m.evidence + results, structuredOutput := structured, structuredOutputKnown := true,
       tools := tools, vision := vision)
  }

  /** `RestoreReviewerCapability` on one model. */
  function ReviewerRestored(m: Model): Model {
    if m.status != Active || !m.autoRoutable then m
    else m.(structuredOutput := true, structuredOutputKnown := true,
            evidence := m.evidence["structured_output" := Evidence(true, "persisted reviewer selection", "selection")])
  }

  /** One section of `ApplyStateToCatalog`: the first entry of a FreeLLMAPI model gets the
      decision taken on a snapshot of it. */
  function SwitchOne(cat: Cat, id: string, on: bool): Cat {
    Update(cat, FREE_PROVIDER, id, (m: Model) => m.(autoRoutable := on))
  }

  /** All its sections, for the models of a snapshot in order, with nothing in between. */
  function SwitchAll(cat: Cat, snapshot: seq<Model>, enabled: bool): Cat
    decreases |snapshot|
  {
    if snapshot == [] then cat
    else
      var m := snapshot[0];
      SwitchAll(if m.provider == FREE_PROVIDER then SwitchOne(cat, m.id, enabled && m.status == Active) else cat,
                snapshot[1..], enabled)
  }

  predicate Published(m: Model) { m.admitted && m.autoRoutable && m.status == Active && !IsMeta(m.id) }
}
