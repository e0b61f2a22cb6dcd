/** The routing service: what a ranking of one request is made of, and how it is built
    (`RankedCandidates` in `internal/routing/reliable.go`, `internal/routing/service.go`). */
module Service {
  import opened Keys
  import opened CatalogModel
  import opened Ranking
  import Capability
  import Health
  import Knowledge
  import Scores

  /** What the routing code reads from the body of a request. */
  datatype Request = Request(isJson: bool, model: string, body: Capability.Body, highRisk: bool, signature: string)

  function ContextFor(env: Environment, req: Request, health: Health.Items, knowledge: Knowledge.Items,
                      stats: Scores.Stats, now: Time): Context
  {
    Context(env, Capability.NeedsOf(req.body), health, now,
            (m: Model) => Scores.Bonus(knowledge, stats, req.highRisk, req.signature, m, now))
  }

  class Router {
    const health: Health.Table
    const learning: Scores.Learning
    const knowledge: Knowledge.Store
    var env: Environment

    constructor (health: Health.Table, learning: Scores.Learning, knowledge: Knowledge.Store, env: Environment)
      ensures this.health == health && this.learning == learning && this.knowledge == knowledge && this.env == env
    {
      this.health, this.learning, this.knowledge, this.env := health, learning, knowledge, env;
    }

    function ContextOf(req: Request, now: Time): Context
      reads this, health, learning, knowledge
    {
      ContextFor(env, req, health.items, knowledge.items, learning.items, now)
    }

    method RouteAvailable(p: string, m: string, now: Time) returns (ok: bool)
      ensures ok <==> !Health.LabelBlocks(health.items, p, now) && Health.IsAvailable(health.items, p, m, now)
    {
      ok := health.ProviderAvailable(p, now);
      if ok {
        ok := health.Available(p, m, now);
      }
    }

    method SupportsAll(m: Model, needs: seq<string>) returns (ok: bool)
      ensures ok <==> forall need :: need in needs ==> Supports(m, need)
    {
      for n := 0 to |needs|
        invariant forall k :: 0 <= k < n ==> Supports(m, needs[k])
      {
        if !Supports(m, needs[n]) {
          assert needs[n] in needs;
          return false;
        }
      }
      ok := true;
    }

    /** One turn of the loop: the model as a candidate, if it is eligible. */
    method Judge(req: Request, needs: seq<string>, m: Model, now: Time) returns (c: Option<Candidate>)
      requires Knowledge.AllLabelled(knowledge.items) && needs == Capability.NeedsOf(req.body)
      ensures c == if Eligible(ContextOf(req, now), m) then Some(ToCandidate(ContextOf(req, now), m)) else None
    {
      if !m.admitted || !m.autoRoutable || m.status != Active || !HasProvider(env, m.provider) {
        return None;
      }
      var capabilitiesMatch := SupportsAll(m, needs);
      if !capabilitiesMatch {
        return None;
      }
      var available := RouteAvailable(m.provider, m.id, now);
      if !available {
        return None;
      }
      var bonus := Scores.KnowledgeBonus(knowledge.items, req.highRisk, req.signature, m.id, now);
      var learned := Scores.LearningBonus(learning.items, m.provider, m.id);
      c := Some(Candidate(m.provider, m.id, m.score + (bonus + learned)));
    }

    /** `RankedCandidates`: filter and score in catalog order, then sort in place. */
    method RankedCandidates(req: Request, models: seq<Model>, now: Time) returns (ranked: seq<Candidate>)
      requires Knowledge.AllLabelled(knowledge.items)
      ensures IsRanking(ContextOf(req, now), models, ranked)
    {
      ghost var ctx := ContextOf(req, now);
      var needs := Capability.RequiredCapabilities(req.body);
      var out: seq<Candidate> := [];
      for i := 0 to |models|
        invariant out == Candidates(ctx, models[..i])
      {
        CandidatesOneMore(ctx, models, i);
        var c := Judge(req, needs, models[i], now);
        if c.Some? {
          out := out + [c.value];
        }
      }
      assert models[..|models|] == models;
      ranked := Arrange(out);
    }
  }

  /** Sorts a copy. */
  method Arrange(out: seq<Candidate>) returns (ranked: seq<Candidate>)
    ensures Sorted(ranked) && multiset(ranked) == multiset(out)
  {
    var a := new Candidate[|out|](i requires 0 <= i < |out| => out[i]);
    assert a[..] == out;
    SortRanked(a);
    ranked := a[..];
  }

  lemma CandidatesOfOne(ctx: Context, m: Model)
    ensures Candidates(ctx, [m]) == if Eligible(ctx, m) then [ToCandidate(ctx, m)] else []
  {
    assert [m][1..] == [];
  }

  lemma CandidatesOneMore(ctx: Context, models: seq<Model>, i: nat)
    requires i < |models|
    ensures Candidates(ctx, models[..i + 1]) ==
            Candidates(ctx, models[..i]) + (if Eligible(ctx, models[i]) then [ToCandidate(ctx, models[i])] else [])
  {
    assert models[..i + 1] == models[..i] + [models[i]];
    CandidatesConcat(ctx, models[..i], [models[i]]);
    CandidatesOfOne(ctx, models[i]);
  }

  // ---------------------------------------------------------------- a large lead stands

  /** A model that leads by more than 140 base points is ranked first of the two, whatever log
      of results and whatever run of the knowledge store the bonuses come from. */
  lemma LeadStands(log: seq<Scores.Sample>, es: seq<Knowledge.Event>, env: Environment, req: Request,
                   health: Health.Items, now: Time, ranked: seq<Candidate>, i: nat, j: nat, x: Model, y: Model)
    requires forall e :: e in es ==> Knowledge.FromReviews(e)
    requires Sorted(ranked) && i < |ranked| && j < |ranked|
    requires
      var ctx := ContextFor(env, req, health, Knowledge.Run(map[], es), Scores.RecordAll(log), now);
      ranked[i] == ToCandidate(ctx, x) && ranked[j] == ToCandidate(ctx, y)
    requires x.score > y.score + 140
    ensures i < j
  {
    var stats := Scores.RecordAll(log);
    Scores.LogIsCounted(log);
    Scores.KnowledgeBonusRange(es, req.signature, x.id, now);
    Scores.KnowledgeBonusRange(es, req.signature, y.id, now);
    Scores.LearningBonusRange(stats, x.provider, x.id);
    Scores.LearningBonusRange(stats, y.provider, y.id);
    assert ranked[i].score > ranked[j].score;
    assert Before(ranked[i], ranked[j]);
  }

  // ---------------------------------------------------------------- the score of a candidate

  /** A candidate is ranked at its base score, plus what was learned of it, plus the points of the
      trusted record of the request and the model, unless the request is of high risk. */
  lemma ScoreIs(env: Environment, req: Request, health: Health.Items, items: Knowledge.Items, stats: Scores.Stats,
                now: Time, models: seq<Model>, ranked: seq<Candidate>, m: Model, k: Knowledge.Item)
    requires IsRanking(ContextFor(env, req, health, items, stats, now), models, ranked)
    requires m in models && Eligible(ContextFor(env, req, health, items, stats, now), m)
    requires req.signature + "|" + m.id in items && items[req.signature + "|" + m.id] == k
    requires k.status == Knowledge.Trusted && k.expiresAt.Some? && k.expiresAt.value > now
    requires k.recommendedModel == m.id != "" && k.signature == req.signature
    ensures
      var points := if req.highRisk then 0 else Scores.Points(k, now);
      Candidate(m.provider, m.id, m.score + points + Scores.LearningBonus(stats, m.provider, m.id)) in ranked
  {
    var ctx := ContextFor(env, req, health, items, stats, now);
    Scores.BonusIs(items, stats, req.signature, m, now, k);
    RankedIff(ctx, models, ranked, ToCandidate(ctx, m));
    assert ctx.bonus(m) == Scores.Bonus(items, stats, req.highRisk, req.signature, m, now);
  }

  /** The context of a request is made of its body and of the stores as they are. */
  lemma ContextIs(env: Environment, req: Request, health: Health.Items, items: Knowledge.Items, stats: Scores.Stats,
                  now: Time)
    ensures
      var ctx := ContextFor(env, req, health, items, stats, now);
      && ctx.env == env && ctx.health == health && ctx.now == now
      && ("tools" in ctx.needs <==> req.body.tools > 0)
      && ("structured_output" in ctx.needs <==> req.body.responseFormat)
  {
  }
}
