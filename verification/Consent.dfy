/** Operator consent of the FreeLLMAPI integration (`internal/integration/freellmapi.go`).
    Every section under the lock is one atomic step; `Revoke` has two, and a local quota
    refresh reads the database, however slowly, between its sections.  Network answers and
    database reads are parameters.  Fields that only report to the operator are left out. */
module Consent {
  import opened Keys
  import Catalog

  /** The configured endpoint and key. */
  datatype Config = Config(endpoint: string, key: string)

  predicate Configured(c: Config) { c.endpoint != "" && Catalog.TrimSpace(c.key) != "" }

  /** A probe needs no more than something to send. */
  predicate CanProbe(c: Config) { c.endpoint != "" && c.key != "" }

  /** `fingerprint` is the configuration whose hash is kept with the state, where there is one. */
  datatype Instance = Instance(
    endpoint: string, fingerprint: Option<Config>, authorized: bool, routeEnabled: bool, recognized: bool, connected: bool,
    catalogFresh: bool, usable: bool, status: string, modelCount: nat, generation: nat)

  /** A report names the database it was read from. */
  datatype Report = Report(dbPath: string, content: string)

  /** Everything the manager holds, which is also what it writes to its file. */
  datatype Memory = Memory(instance: Instance, dbPath: string, quota: Option<Report>, quotaError: string)

  function Blank(endpoint: string, fingerprint: Option<Config>, status: string): Memory {
    Memory(Instance(endpoint, fingerprint, false, false, false, false, false, false, status, 0, 0), "", None, "")
  }

  // ---------------------------------------------------------------- sections

  function Authorized(x: Instance, route: bool): Instance {
    x.(authorized := true, routeEnabled := route, status := "authorized", usable := false,
       generation := x.generation + 1)
  }

  function Withdrawn(x: Instance): Instance {
    x.(authorized := false, routeEnabled := false, usable := false, status := "revoked",
       generation := x.generation + 1)
  }

  function Dropped(m: Memory): Memory { m.(quota := None, quotaError := "not_authorized") }

  function Routed(x: Instance, enabled: bool): Instance {
    x.(routeEnabled := enabled,
       usable := if !enabled then false else if x.authorized && x.connected && x.catalogFresh then true else x.usable,
       generation := x.generation + 1)
  }

  /** The answers of one probe: HTTP statuses, where there was an answer, and the number of
      models left after decoding and filtering, where decoding succeeded. */
  datatype Answers = Answers(live: Option<int>, ready: Option<int>, models: Option<int>, routable: Option<nat>)

  predicate Good(status: Option<int>) { status.Some? && 200 <= status.value < 300 }

  function Probed(x: Instance, a: Answers): Instance {
    if !Good(a.live) then x.(connected := false, usable := false, status := "disconnected")
    else if !Good(a.ready) then x.(connected := true, recognized := true, usable := false, status := "degraded")
    else if !Good(a.models) then x.(connected := true, recognized := false, usable := false, status := "unauthorized")
    else if a.routable.None? then x.(connected := true, recognized := false, usable := false, status := "invalid")
    else if a.routable.value == 0 then x.(catalogFresh := false, usable := false, status := "invalid")
    else x.(recognized := true, connected := true, catalogFresh := true, usable := x.authorized && x.routeEnabled,
            status := "connected", modelCount := a.routable.value)
  }

  predicate AllFlags(x: Instance) { x.authorized && x.routeEnabled && x.connected && x.catalogFresh }

  predicate ProbeSucceeds(a: Answers) {
    Good(a.live) && Good(a.ready) && Good(a.models) && a.routable.Some? && a.routable.value > 0
  }

  predicate FlagsOk(x: Instance) {
    x.usable ==> x.authorized && x.routeEnabled && x.connected && x.catalogFresh
  }

  function Synced(x: Instance, count: nat): Instance {
    x.(modelCount := count, catalogFresh := true,
       usable := if x.connected then x.authorized && x.routeEnabled else x.usable)
  }

  /** The commit of a finished read. */
  datatype Outcome = Read(report: Report) | Unreadable(error: string)

  function Committed(m: Memory, o: Outcome): Memory {
    if !m.instance.authorized then Dropped(m)
    else match o
      case Read(r) => m.(quota := Some(r), quotaError := "")
      case Unreadable(e) => m.(quotaError := e)
  }

  function Moved(m: Memory, path: string): Memory {
    if m.dbPath != path then Memory(m.instance, path, None, "") else m
  }

  predicate SameConfig(m: Memory, c: Config) {
    m.instance.endpoint == c.endpoint && m.instance.fingerprint == Some(c)
  }

  /** `New`: `file` is what an earlier process wrote. */
  function Loaded(c: Config, file: Option<Memory>): Memory {
    if !Configured(c) then Blank(c.endpoint, None, "unconfigured")
    else if file.None? then Blank(c.endpoint, Some(c), "unauthorized")
    else
      var m := file.value;
      if SameConfig(m, c) then m
      else m.(instance := m.instance.(endpoint := c.endpoint, fingerprint := Some(c), authorized := false,
                                      routeEnabled := false, usable := false, status := "config_changed"),
              quota := None, quotaError := "config_changed")
  }

  /** An unconfigured manager does not touch the file when it starts. */
  function FileAfterLoad(c: Config, file: Option<Memory>): Option<Memory> {
    if !Configured(c) then file else Some(Loaded(c, file))
  }

  // ---------------------------------------------------------------- the manager

  class Manager {
    const config: Config
    var instance: Instance
    var dbPath: string
    var quota: Option<Report>
    var quotaError: string
    var file: Option<Memory>

    function View(): Memory
      reads this
    {
      Memory(instance, dbPath, quota, quotaError)
    }

    constructor (config: Config, file: Option<Memory>)
      ensures this.config == config
      ensures View() == Loaded(config, file) && this.file == FileAfterLoad(config, file)
    {
      var m := Blank(config.endpoint, None, "unconfigured");
      var f := file;
      if config.endpoint != "" && Catalog.TrimSpace(config.key) != "" {
        m := Blank(config.endpoint, Some(config), "unauthorized");
        if file.Some? {
          m := file.value;
          if m.instance.endpoint != config.endpoint || m.instance.fingerprint != Some(config) {
            m := m.(instance := m.instance.(endpoint := config.endpoint, fingerprint := Some(config),
                                            authorized := false, routeEnabled := false, usable := false,
                                            status := "config_changed"));
            m := m.(quota := None, quotaError := "config_changed");
          }
        }
        f := Some(m);
      }
      this.config := config;
      instance, dbPath, quota, quotaError := m.instance, m.dbPath, m.quota, m.quotaError;
      this.file := f;
    }

    method Persist()
      modifies this`file
      ensures file == Some(View())
    {
      file := Some(Memory(instance, dbPath, quota, quotaError));
    }

    method SetStatus(fn: Instance -> Instance)
      modifies this
      ensures View() == old(View()).(instance := fn(old(instance))) && file == Some(View())
    {
      instance := fn(instance);
      Persist();
    }

    /** Consent, with or without routing; nothing is usable on it before the next probe, sync or
        route switch. */
    method Authorize(route: bool)
      modifies this
      ensures file == Some(View()) && View().(instance := old(instance)) == old(View())
      ensures instance == Authorized(old(instance), route)
      ensures instance.authorized && (instance.routeEnabled <==> route) && !RouteEnabled()
      ensures instance.generation > old(instance.generation)
    {
      SetStatus((x: Instance) =>
        x.(authorized := true, routeEnabled := route, status := "authorized", usable := false,
           generation := x.generation + 1));
    }

    /** `Revoke` is the one section after the other. */
    method WithdrawConsent()
      modifies this
      ensures View() == old(View()).(instance := Withdrawn(old(instance))) && file == Some(View())
    {
      SetStatus((x: Instance) =>
        x.(authorized := false, routeEnabled := false, usable := false, status := "revoked",
           generation := x.generation + 1));
    }

    method DropLocalQuota()
      modifies this
      ensures View() == Dropped(old(View())) && file == Some(View())
    {
      quota := None;
      quotaError := "not_authorized";
      Persist();
    }

    method Revoke()
      modifies this
      ensures !instance.authorized && !instance.usable && quota == None && file == Some(View())
      ensures View() == Dropped(old(View()).(instance := Withdrawn(old(instance))))
    {
      WithdrawConsent();
      DropLocalQuota();
    }

    /** From a state whose usable flag is sound, the route is enabled afterwards exactly when the
        operator has switched it on and the instance is authorized, connected and fresh. */
    method SetRoute(enabled: bool)
      modifies this
      ensures file == Some(View()) && View().(instance := old(instance)) == old(View())
      ensures instance == Routed(old(instance), enabled)
      ensures FlagsOk(old(instance)) ==> FlagsOk(instance)
      ensures FlagsOk(old(instance)) ==>
        (RouteEnabled() <==> enabled && instance.authorized && instance.connected && instance.catalogFresh)
    {
      SetStatus((x: Instance) =>
        var y := x.(routeEnabled := enabled);
        (if !enabled then y.(usable := false)
         else if y.authorized && y.connected && y.catalogFresh then y.(usable := true)
         else y).(generation := x.generation + 1));
    }

    method Probe(a: Answers) returns (ok: bool)
      modifies this
      ensures !CanProbe(config) ==> View() == old(View()) && file == old(file)
      ensures CanProbe(config) ==>
        View() == old(View()).(instance := Probed(old(instance), a)) && file == Some(View())
      ensures ok <==> CanProbe(config) && ProbeSucceeds(a)
      ensures FlagsOk(old(instance)) ==> FlagsOk(instance)
      ensures ok ==> (RouteEnabled() <==> instance.authorized && instance.routeEnabled)
    {
      ok := false;
      if config.endpoint == "" || config.key == "" {
        return;
      }
      if !Good(a.live) {
        SetStatus((x: Instance) => x.(connected := false, usable := false, status := "disconnected"));
        return;
      }
      if !Good(a.ready) {
        SetStatus((x: Instance) => x.(connected := true, recognized := true, usable := false, status := "degraded"));
        return;
      }
      if !Good(a.models) {
        SetStatus((x: Instance) => x.(connected := true, recognized := false, usable := false, status := "unauthorized"));
        return;
      }
      if a.routable.None? {
        SetStatus((x: Instance) => x.(connected := true, recognized := false, usable := false, status := "invalid"));
        return;
      }
      if a.routable.value == 0 {
        SetStatus((x: Instance) => x.(catalogFresh := false, usable := false, status := "invalid"));
        return;
      }
      SetStatus((x: Instance) => x.(recognized := true, connected := true, catalogFresh := true,
                                    usable := x.authorized && x.routeEnabled, status := "connected",
                                    modelCount := a.routable.value));
      ok := true;
    }

    /** From a state whose usable flag is sound, the route is enabled after a sync exactly when
        the instance is authorized, routed and connected. */
    method MarkSynced(count: nat)
      modifies this
      ensures file == Some(View()) && View().(instance := old(instance)) == old(View())
      ensures instance == Synced(old(instance), count)
      ensures FlagsOk(old(instance)) ==> FlagsOk(instance)
      ensures FlagsOk(old(instance)) ==>
        (RouteEnabled() <==> instance.authorized && instance.routeEnabled && instance.connected)
    {
      SetStatus((x: Instance) =>
        var y := x.(modelCount := count, catalogFresh := true);
        if y.connected then y.(usable := y.authorized && y.routeEnabled) else y);
    }

    method CommitRefresh(o: Outcome)
      modifies this
      ensures View() == Committed(old(View()), o) && file == Some(View())
    {
      if !instance.authorized {
        quota := None;
        quotaError := "not_authorized";
        Persist();
        return;
      }
      match o {
        case Unreadable(e) =>
          quotaError := e;
        case Read(r) =>
          quota := Some(r);
          quotaError := "";
      }
      Persist();
    }

    method SetLocalQuotaPath(path: string)
      modifies this
      ensures View() == Moved(old(View()), path) && file == Some(View())
    {
      if dbPath != path {
        quota := None;
        quotaError := "";
      }
      dbPath := path;
      Persist();
    }

    predicate RouteEnabled()
      reads this
    {
      instance.authorized && instance.routeEnabled && instance.connected && instance.catalogFresh && instance.usable
    }
  }

  // ---------------------------------------------------------------- interleavings

  /** A refresh between its sections: it has noted the path; then it has looked whether it
      may read. */
  datatype Reading = Noted(path: string) | Looked(path: string, allowed: bool)

  /** `revoking` counts the revocations between their two sections. */
  datatype State = State(config: Config, m: Memory, file: Option<Memory>, revoking: nat, readers: map<nat, Reading>)

  datatype Event =
    | Authorize(route: bool)
    | RevokeFirst
    | RevokeSecond
    | SetRoute(enabled: bool)
    | Probe(a: Answers)
    | MarkSynced(count: nat)
    | NotePath(r: nat)
    | Look(r: nat)
    | Commit(r: nat, content: Option<string>, error: string)
    | SetPath(path: string)
    | Restart(config: Config)

  function Saved(s: State, m: Memory): State { s.(m := m, file := Some(m)) }

  function OutcomeOf(x: Reading, content: Option<string>, error: string): Outcome
    requires x.Looked?
  {
    if !x.allowed then Unreadable("not_authorized")
    else if content.None? then Unreadable(error)
    else Read(Report(x.path, content.value))
  }

  predicate CanCommit(s: State, r: nat) { r in s.readers && s.readers[r].Looked? }

  function Next(s: State, e: Event): State {
    match e
    case Authorize(route) => Saved(s, s.m.(instance := Authorized(s.m.instance, route)))
    case RevokeFirst => Saved(s.(revoking := s.revoking + 1), s.m.(instance := Withdrawn(s.m.instance)))
    case RevokeSecond => if s.revoking == 0 then s else Saved(s.(revoking := s.revoking - 1), Dropped(s.m))
    case SetRoute(enabled) => Saved(s, s.m.(instance := Routed(s.m.instance, enabled)))
    case Probe(a) => if CanProbe(s.config) then Saved(s, s.m.(instance := Probed(s.m.instance, a))) else s
    case MarkSynced(count) => Saved(s, s.m.(instance := Synced(s.m.instance, count)))
    case NotePath(r) => if r in s.readers then s else s.(readers := s.readers[r := Noted(s.m.dbPath)])
    case Look(r) =>
      if r in s.readers && s.readers[r].Noted? then
        s.(readers := s.readers[r := Looked(s.readers[r].path, s.m.instance.authorized)])
      else s
    case Commit(r, content, error) =>
      if CanCommit(s, r) then
        Saved(s.(readers := s.readers - {r}), Committed(s.m, OutcomeOf(s.readers[r], content, error)))
      else s
    case SetPath(path) => Saved(s, Moved(s.m, path))
    case Restart(config) => State(config, Loaded(config, s.file), FileAfterLoad(config, s.file), 0, map[])
  }

  function Run(s: State, es: seq<Event>): State
    decreases |es|
  {
    if es == [] then s else Run(Next(s, es[0]), es[1..])
  }

  // ---------------------------------------------------------------- usable means consented and live

  predicate UsableOk(s: State) {
    FlagsOk(s.m.instance) && (s.file.Some? ==> FlagsOk(s.file.value.instance))
  }

  lemma LoadedFlagsOk(config: Config, file: Option<Memory>)
    requires file.Some? ==> FlagsOk(file.value.instance)
    ensures FlagsOk(Loaded(config, file).instance)
  {
  }

  lemma StepKeepsFlags(s: State, e: Event)
    requires UsableOk(s)
    ensures UsableOk(Next(s, e))
  {
    if e.Restart? {
      LoadedFlagsOk(e.config, s.file);
    }
  }

  /** In every interleaving, restarts included, a usable instance is authorized, routed,
      connected and fresh, so that `RouteEnabled` is the usable flag. */
  lemma {:induction false} UsableMeansConsent(s: State, es: seq<Event>)
    requires UsableOk(s)
    ensures
      var x := Run(s, es).m.instance;
      && UsableOk(Run(s, es))
      && (x.authorized && x.routeEnabled && x.connected && x.catalogFresh && x.usable <==> x.usable)
    decreases |es|
  {
    if es != [] {
      StepKeepsFlags(s, es[0]);
      UsableMeansConsent(Next(s, es[0]), es[1..]);
    }
  }

  /** The flag is no weaker than it has to be: a route switch, a sync and a successful probe
      leave it set exactly when the other four are; a failed probe, a new consent and a
      revocation clear it; and nothing else in a running process touches it. */
  lemma UsableAfterStep(s: State, e: Event)
    requires UsableOk(s) && !e.Restart?
    ensures
      var x, y := s.m.instance, Next(s, e).m.instance;
      match e
      case SetRoute(_) => y.usable <==> AllFlags(y)
      case MarkSynced(_) => y.usable <==> AllFlags(y)
      case Probe(a) => if CanProbe(s.config) then (y.usable <==> AllFlags(y) && ProbeSucceeds(a)) else y == x
      case Authorize(_) => !y.usable && y.authorized
      case RevokeFirst => !y.usable && !y.authorized && !y.routeEnabled
      case _ => y == x
  {
    match e
    case Commit(r, content, error) =>
      if CanCommit(s, r) {
        assert Committed(s.m, OutcomeOf(s.readers[r], content, error)).instance == s.m.instance;
      }
    case _ =>
  }

  // ---------------------------------------------------------------- local quota needs consent

  /** A report without consent. */
  predicate Torn(m: Memory) { m.quota.Some? && !m.instance.authorized }

  predicate QuotaOk(s: State) {
    && (Torn(s.m) ==> s.revoking > 0)
    && (s.file.Some? && Torn(s.file.value) ==> s.revoking > 0)
  }

  /** A restart that picks up a file written between the two sections of a revocation. */
  predicate TearsConsent(s: State, e: Event) {
    e.Restart? && s.file.Some? && Torn(s.file.value)
    && (!Configured(e.config) || SameConfig(s.file.value, e.config))
  }

  lemma StepKeepsQuotaIff(s: State, e: Event)
    requires QuotaOk(s)
    ensures QuotaOk(Next(s, e)) <==> !TearsConsent(s, e)
  {
  }

  predicate NeverTears(s: State, es: seq<Event>)
    decreases |es|
  {
    es == [] || (!TearsConsent(s, es[0]) && NeverTears(Next(s, es[0]), es[1..]))
  }

  /** A report is held only under consent or while a revocation is between its sections, in
      every interleaving with reads of any length, as long as no restart on the way picks up a
      torn file. */
  lemma {:induction false} QuotaNeedsConsent(s: State, es: seq<Event>)
    requires QuotaOk(s) && NeverTears(s, es)
    ensures Run(s, es).m.quota.Some? ==> Run(s, es).m.instance.authorized || Run(s, es).revoking > 0
    ensures QuotaOk(Run(s, es))
    decreases |es|
  {
    if es != [] {
      StepKeepsQuotaIff(s, es[0]);
      QuotaNeedsConsent(Next(s, es[0]), es[1..]);
    }
  }

  /** No restart of the run comes between the two sections of a revocation. */
  predicate QuietRestarts(s: State, es: seq<Event>)
    decreases |es|
  {
    es == [] || ((es[0].Restart? ==> s.revoking == 0) && QuietRestarts(Next(s, es[0]), es[1..]))
  }

  /** So in every interleaving whose restarts find no revocation under way, whatever is in the
      file and whatever the configuration becomes, a report is held only under consent. */
  lemma {:induction false} QuietRestartsAreSafe(s: State, es: seq<Event>)
    requires QuotaOk(s) && QuietRestarts(s, es)
    ensures NeverTears(s, es) && QuotaOk(Run(s, es))
    ensures Run(s, es).revoking == 0 && Run(s, es).m.quota.Some? ==> Run(s, es).m.instance.authorized
    decreases |es|
  {
    if es != [] {
      StepKeepsQuotaIff(s, es[0]);
      QuietRestartsAreSafe(Next(s, es[0]), es[1..]);
    }
  }

  /** The torn restart exists: revoking, and restarting before the second section. */
  lemma TornRestart(s: State)
    requires QuotaOk(s) && s.m.instance.authorized && s.m.quota.Some?
    requires Configured(s.config) && SameConfig(s.m, s.config)
    ensures
      var t := Run(s, [RevokeFirst, Restart(s.config)]);
      t.m.quota.Some? && !t.m.instance.authorized && t.revoking == 0
  {
    TwoSteps(s, RevokeFirst, Restart(s.config));
    TornFile(s);
    RestartReads(Next(s, RevokeFirst), s.config);
  }

  /** Between its two sections a revocation has written the report without the consent. */
  lemma TornFile(s: State)
    requires s.m.quota.Some?
    ensures
      var t := Next(s, RevokeFirst);
      t.file == Some(t.m) && Torn(t.m) && (SameConfig(t.m, s.config) <==> SameConfig(s.m, s.config))
  {
  }

  /** A restart on an unchanged configuration picks up the file as it is. */
  lemma RestartReads(s: State, c: Config)
    requires s.file == Some(s.m) && Configured(c) && SameConfig(s.m, c)
    ensures Next(s, Restart(c)).m == s.m && Next(s, Restart(c)).revoking == 0
  {
  }

  lemma TwoSteps(s: State, a: Event, b: Event)
    ensures Run(s, [a, b]) == Next(Next(s, a), b)
  {
    assert [a, b][1..] == [b] && [b][1..] == [];
    assert Run(Next(s, a), [b]) == Run(Next(Next(s, a), b), []);
  }

  lemma StepPublishesNothing(s: State, e: Event)
    requires !s.m.instance.authorized && !e.Authorize? && !e.Restart?
    ensures !Next(s, e).m.instance.authorized && Next(s, e).m.quota in {None, s.m.quota}
    ensures e == RevokeSecond && s.revoking > 0 ==> Next(s, e).m.quota == None
    ensures e != RevokeSecond ==> Next(s, e).revoking >= s.revoking
  {
  }

  /** Without a new consent nothing is published: whatever reads finish in the meantime, the
      report held is the one from before, or none. */
  lemma {:induction false} NothingPublishedWithoutConsent(s: State, es: seq<Event>)
    requires !s.m.instance.authorized && forall e :: e in es ==> !e.Authorize? && !e.Restart?
    ensures !Run(s, es).m.instance.authorized
    ensures Run(s, es).m.quota == None || Run(s, es).m.quota == s.m.quota
    ensures s.revoking > 0 && RevokeSecond in es ==> Run(s, es).m.quota == None
    decreases |es|
  {
    if es != [] {
      assert !es[0].Authorize? && !es[0].Restart?;
      StepPublishesNothing(s, es[0]);
      NothingPublishedWithoutConsent(Next(s, es[0]), es[1..]);
    }
  }

  /** What a step publishes: the content of a read that was allowed when it looked, if consent
      stands when it commits.  It need not be the consent it looked at. */
  lemma PublishedByCommit(s: State, e: Event)
    requires !e.Restart?
    ensures
      if e.Commit? && CanCommit(s, e.r) && s.m.instance.authorized && s.readers[e.r].allowed && e.content.Some?
      then Next(s, e).m.quota == Some(Report(s.readers[e.r].path, e.content.value))
      else Next(s, e).m.quota in {None, s.m.quota}
  {
  }

  /** A read that was begun under one consent is published under the next: consent is revoked,
      in both sections, and given again while the read is on its way. */
  lemma OldConsentIsPublished(s: State, r: nat, route: bool, content: string)
    requires s.m.instance.authorized && r !in s.readers
    ensures
      var first := [NotePath(r), Look(r), RevokeFirst, RevokeSecond];
      var t := Run(s, first);
      && !t.m.instance.authorized && (s.revoking == 0 ==> t.m.quota == None)
      && Run(t, [Authorize(route), Commit(r, Some(content), "")]).m.quota == Some(Report(s.m.dbPath, content))
  {
    var t1 := Next(s, NotePath(r));
    var t2 := Next(t1, Look(r));
    var t3 := Next(t2, RevokeFirst);
    var t := Next(t3, RevokeSecond);
    FourSteps(s, NotePath(r), Look(r), RevokeFirst, RevokeSecond);
    assert t2.readers[r] == Looked(s.m.dbPath, true);
    assert t.readers == t2.readers && t.m.quota == None;
    var u := Next(t, Authorize(route));
    TwoSteps(t, Authorize(route), Commit(r, Some(content), ""));
    assert u.readers == t.readers && u.m.instance.authorized;
    PublishedByCommit(u, Commit(r, Some(content), ""));
  }

  // ---------------------------------------------------------------- the report is of the configured database

  predicate PathOk(s: State) {
    && (s.m.quota.Some? ==> s.m.quota.value.dbPath == s.m.dbPath)
    && (s.file.Some? && s.file.value.quota.Some? ==> s.file.value.quota.value.dbPath == s.file.value.dbPath)
  }

  /** A read that was begun on another path and is published all the same. */
  predicate CommitsOldPath(s: State, e: Event) {
    e.Commit? && CanCommit(s, e.r) && s.m.instance.authorized && s.readers[e.r].allowed && e.content.Some?
    && s.readers[e.r].path != s.m.dbPath
  }

  /** The report held is of the present path, except exactly when a read that noted the old
      path commits after the path was changed. */
  lemma StepKeepsPathIff(s: State, e: Event)
    requires PathOk(s)
    ensures PathOk(Next(s, e)) <==> !CommitsOldPath(s, e)
  {
  }

  /** The failing input: a refresh notes the path and looks, the path is changed, and the refresh
      commits what it has read; the manager then holds a report of the old database. */
  lemma OldPathIsPublished(s: State, r: nat, path: string, content: string)
    requires s.m.instance.authorized && r !in s.readers && path != s.m.dbPath
    ensures
      var t := Run(s, [NotePath(r), Look(r), SetPath(path), Commit(r, Some(content), "")]);
      t.m.dbPath == path && t.m.quota == Some(Report(s.m.dbPath, content)) && !PathOk(t)
  {
    var t1 := Next(s, NotePath(r));
    var t2 := Next(t1, Look(r));
    var t3 := Next(t2, SetPath(path));
    var last := Commit(r, Some(content), "");
    FourSteps(s, NotePath(r), Look(r), SetPath(path), last);
    assert t3.readers[r] == Looked(s.m.dbPath, true) && t3.m.instance.authorized;
  }

  lemma FourSteps(s: State, a: Event, b: Event, c: Event, d: Event)
    ensures Run(s, [a, b, c, d]) == Next(Next(Next(Next(s, a), b), c), d)
  {
    var s1 := Next(s, a);
    var s2 := Next(s1, b);
    var s3 := Next(s2, c);
    assert [a, b, c, d][1..] == [b, c, d] && [b, c, d][1..] == [c, d] && [c, d][1..] == [d] && [d][1..] == [];
    assert Run(s1, [b, c, d]) == Run(s2, [c, d]);
    assert Run(s2, [c, d]) == Run(s3, [d]);
    assert Run(s3, [d]) == Run(Next(s3, d), []);
  }

  /** A path that is set once, before any refresh, is never left: no read notes another one. */
  predicate OnePath(s: State) { PathOk(s) && forall r :: r in s.readers ==> s.readers[r].path == s.m.dbPath }

  lemma {:induction false} FixedPathIsKept(s: State, es: seq<Event>)
    requires OnePath(s) && forall e :: e in es ==> !e.Restart? && (e.SetPath? ==> e.path == s.m.dbPath)
    ensures Run(s, es).m.quota.Some? ==> Run(s, es).m.quota.value.dbPath == s.m.dbPath
    decreases |es|
  {
    if es != [] {
      var e := es[0];
      assert !e.Restart? && (e.SetPath? ==> e.path == s.m.dbPath);
      StepKeepsPathIff(s, e);
      FixedPathIsKept(Next(s, e), es[1..]);
    }
  }

  // ---------------------------------------------------------------- what each section writes

  /** A request was answered with a 2xx. */
  predicate Ok(status: Option<int>) { status.Some? && status.value >= 200 && status.value <= 299 }

  /** What a probe makes of the instance: it is connected afterwards if and only if the liveness
      check was good, but for an empty model list, which leaves that as it was; its catalog is
      fresh after a list with models, not after an empty one, and as before otherwise; it is
      usable only after such a list, under consent and routing; and a probe touches no consent. */
  lemma ProbeFinds(s: State, a: Answers)
    requires s.config.endpoint != "" && s.config.key != ""
    ensures
      var t := Next(s, Probe(a));
      var x, y := s.m.instance, t.m.instance;
      var reached := Ok(a.live) && Ok(a.ready) && Ok(a.models);
      var empty, found := reached && a.routable == Some(0), reached && a.routable.Some? && a.routable.value > 0;
      && (y.connected <==> if empty then x.connected else Ok(a.live))
      && (y.catalogFresh <==> if found then true else if empty then false else x.catalogFresh)
      && (y.usable <==> found && x.authorized && x.routeEnabled)
      && (y.recognized <==> if !Ok(a.live) || empty then x.recognized else if !Ok(a.ready) then true else found)
      && y.modelCount == (if found then a.routable.value else x.modelCount)
      && y.status == (if !Ok(a.live) then "disconnected" else if !Ok(a.ready) then "degraded"
                      else if !Ok(a.models) then "unauthorized" else if found then "connected" else "invalid")
      && y.authorized == x.authorized && y.routeEnabled == x.routeEnabled && y.generation == x.generation
      && y.endpoint == x.endpoint && y.fingerprint == x.fingerprint
      && t.m == s.m.(instance := y) && t.file == Some(t.m) && (ProbeSucceeds(a) <==> found)
  {
  }

  lemma ProbeNeedsConfig(s: State, a: Answers)
    requires s.config.endpoint == "" || s.config.key == ""
    ensures Next(s, Probe(a)) == s
  {
  }

  /** A server that did not answer the last liveness check. */
  predicate Dead(s: State) {
    && !s.m.instance.connected && !s.m.instance.usable
    && (s.file.Some? ==> !s.file.value.instance.connected && !s.file.value.instance.usable)
  }

  /** After a failed liveness check no route switch, sync, consent, refresh or restart, in any
      order and number, enables the route, until a probe finds the server alive. */
  lemma {:induction false} DeadStaysOff(s: State, es: seq<Event>)
    requires Dead(s) && forall e :: e in es ==> !(e.Probe? && Ok(e.a.live))
    ensures
      var x := Run(s, es).m.instance;
      !x.connected && !x.usable && !(x.authorized && x.routeEnabled && x.connected && x.catalogFresh && x.usable)
    decreases |es|
  {
    if es != [] {
      assert !(es[0].Probe? && Ok(es[0].a.live));
      DeadStep(s, es[0]);
      DeadStaysOff(Next(s, es[0]), es[1..]);
    }
  }

  lemma DeadStep(s: State, e: Event)
    requires Dead(s) && !(e.Probe? && Ok(e.a.live))
    ensures Dead(Next(s, e))
  {
  }

  lemma FailedCheckIsDead(s: State, a: Answers)
    requires s.config.endpoint != "" && s.config.key != "" && !Ok(a.live)
    ensures Dead(Next(s, Probe(a)))
  {
    ProbeFinds(s, a);
  }

  /** The switches: what each changes on the instance, and that it changes nothing else. */
  lemma SwitchesWrite(s: State, route: bool, count: nat)
    ensures
      var x := s.m.instance;
      var given, on, synced := Next(s, Authorize(route)), Next(s, SetRoute(route)), Next(s, MarkSynced(count));
      && given.m == s.m.(instance := x.(authorized := true, routeEnabled := route, usable := false,
                                        status := "authorized", generation := x.generation + 1))
      && on.m == s.m.(instance := x.(routeEnabled := route, generation := x.generation + 1,
                                     usable := on.m.instance.usable))
      && (on.m.instance.usable <==> route && (x.usable || (x.authorized && x.connected && x.catalogFresh)))
      && synced.m == s.m.(instance := x.(modelCount := count, catalogFresh := true, usable := synced.m.instance.usable))
      && (synced.m.instance.usable <==> if x.connected then x.authorized && x.routeEnabled else x.usable)
      && given.file == Some(given.m) && on.file == Some(on.m) && synced.file == Some(synced.m)
  {
  }

  /** A revocation: first the consent with everything that rests on it, later the report. */
  lemma RevocationWrites(s: State)
    ensures
      var x, first, second := s.m.instance, Next(s, RevokeFirst), Next(s, RevokeSecond);
      && first.m == s.m.(instance := x.(authorized := false, routeEnabled := false, usable := false,
                                        status := "revoked", generation := x.generation + 1))
      && first.revoking == s.revoking + 1 && first.file == Some(first.m)
      && (s.revoking > 0 ==>
            && second.m == s.m.(quota := None, quotaError := "not_authorized")
            && second.revoking == s.revoking - 1 && second.file == Some(second.m))
  {
  }

  /** A refresh that commits: without consent it clears the report; with it, it publishes what it
      read, or notes its error and keeps the last report. */
  lemma CommitWrites(s: State, r: nat, content: Option<string>, error: string)
    requires r in s.readers && s.readers[r].Looked?
    ensures
      var t, x := Next(s, Commit(r, content, error)), s.readers[r];
      && t.m.instance == s.m.instance && t.m.dbPath == s.m.dbPath && t.file == Some(t.m)
      && (!s.m.instance.authorized ==> t.m.quota == None && t.m.quotaError == "not_authorized")
      && (s.m.instance.authorized && x.allowed && content.Some? ==>
            t.m.quota == Some(Report(x.path, content.value)) && t.m.quotaError == "")
      && (s.m.instance.authorized && !x.allowed ==> t.m.quota == s.m.quota && t.m.quotaError == "not_authorized")
      && (s.m.instance.authorized && x.allowed && content.None? ==>
            t.m.quota == s.m.quota && t.m.quotaError == error)
  {
  }

  /** Another path drops report and error, the same one changes nothing but the file. */
  lemma PathWrites(s: State, path: string)
    ensures
      var t := Next(s, SetPath(path));
      && t.m == (if path == s.m.dbPath then s.m else s.m.(dbPath := path, quota := None, quotaError := ""))
      && t.file == Some(t.m)
  {
  }

  /** A memory in which nothing has happened. */
  function NoConsent(endpoint: string, fingerprint: Option<Config>, status: string): Memory {
    var x := Instance(endpoint, fingerprint, false, false, false, false, false, false, status, 0, 0);
    Memory(x, "", None, "")
  }

  /** What a start finds: nothing without an endpoint or a key; the saved state under the same
      endpoint and key; and under others the saved state without its consent and its report. */
  lemma StartFinds(s: State, c: Config)
    ensures
      var t := Next(s, Restart(c));
      var configured := c.endpoint != "" && Catalog.TrimSpace(c.key) != "";
      && (configured ==> t.file == Some(t.m)) && (!configured ==> t.file == s.file)
      && (!configured ==> t.m == NoConsent(c.endpoint, None, "unconfigured"))
      && (configured && s.file == None ==> t.m == NoConsent(c.endpoint, Some(c), "unauthorized"))
      && (configured && s.file.Some? ==>
            var f := s.file.value;
            var same := f.instance.endpoint == c.endpoint && f.instance.fingerprint == Some(c);
            && (same ==> t.m == f)
            && (!same ==> t.m == Memory(f.instance.(endpoint := c.endpoint, fingerprint := Some(c), authorized := false,
                                                    routeEnabled := false, usable := false, status := "config_changed"),
                                        f.dbPath, None, "config_changed")))
  {
  }

  /** What the rest of the program asks: all five flags, none of which the others stand for. */
  lemma EnabledIff(manager: Manager)
    ensures
      var x := manager.instance;
      manager.RouteEnabled() <==> !(!x.authorized || !x.routeEnabled || !x.connected || !x.catalogFresh || !x.usable)
  {
  }
}
