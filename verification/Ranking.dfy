/** Candidate ranking: the order, the in-place sort (`sortRanked` in
    `internal/routing/reliable.go`), and what a ranking of eligible models is.  The method that
    builds one is in `Service`. */
module Ranking {
  import opened Keys
  import opened CatalogModel
  import Health

  datatype Candidate = Candidate(provider: string, model: string, score: int)

  // ---------------------------------------------------------------- the order

  /** Go's string order: lexicographic, a proper prefix first. */
  predicate StrLess(a: string, b: string) {
    b != "" && (a == "" || a[0] < b[0] || (a[0] == b[0] && StrLess(a[1..], b[1..])))
  }

  lemma {:induction false} StrLessTotal(a: string, b: string)
    ensures StrLess(a, b) || StrLess(b, a) || a == b
    ensures !(StrLess(a, b) && StrLess(b, a))
    ensures a == b ==> !StrLess(a, b)
  {
    if a != "" && b != "" {
      StrLessTotal(a[1..], b[1..]);
      assert a == [a[0]] + a[1..] && b == [b[0]] + b[1..];
    }
  }

  lemma {:induction false} StrLessTransitive(a: string, b: string, c: string)
    requires StrLess(a, b) && StrLess(b, c)
    ensures StrLess(a, c)
  {
    if a != "" && a[0] == b[0] && b[0] == c[0] {
      StrLessTransitive(a[1..], b[1..], c[1..]);
    }
  }

  function CandidateKey(c: Candidate): string { RouteKey(c.provider, c.model) }

  /** The comparison of the sort: higher score first, then smaller `provider/model`. */
  predicate Before(x: Candidate, y: Candidate) {
    x.score > y.score || (x.score == y.score && StrLess(CandidateKey(x), CandidateKey(y)))
  }

  lemma BeforeTotal(x: Candidate, y: Candidate)
    requires SlashFree(x.provider) && SlashFree(y.provider)
    ensures Before(x, y) || Before(y, x) || x == y
    ensures !(Before(x, y) && Before(y, x))
  {
    StrLessTotal(CandidateKey(x), CandidateKey(y));
    if CandidateKey(x) == CandidateKey(y) {
      RouteKeyInjective(x.provider, x.model, y.provider, y.model);
    }
  }

  lemma NotAfterTransitive(x: Candidate, y: Candidate, z: Candidate)
    requires !Before(y, x) && !Before(z, y)
    ensures !Before(z, x)
  {
    var a, b, c := CandidateKey(x), CandidateKey(y), CandidateKey(z);
    StrLessTotal(a, b);
    StrLessTotal(b, c);
    StrLessTotal(a, c);
    if Before(z, x) {
      if StrLess(a, b) && StrLess(b, c) { StrLessTransitive(a, b, c); }
    }
  }

  predicate Sorted(s: seq<Candidate>) {
    forall i, j :: 0 <= i < j < |s| ==> !Before(s[j], s[i])
  }

  // ---------------------------------------------------------------- the in-place sort

  method SortRanked(a: array<Candidate>)
    modifies a
    ensures Sorted(a[..])
    ensures multiset(a[..]) == multiset(old(a[..]))
  {
    if a.Length == 0 {
      return;
    }
    var i := 1;
    while i < a.Length
      invariant 1 <= i <= a.Length
      invariant Sorted(a[..i])
      invariant multiset(a[..]) == multiset(old(a[..]))
    {
      SiftDown(a, i);
      i := i + 1;
    }
    assert a[..a.Length] == a[..];
  }

  /** The inner loop: moves `a[i]` into the sorted prefix in front of it. */
  method SiftDown(a: array<Candidate>, i: nat)
    requires i < a.Length && Sorted(a[..i])
    modifies a
    ensures Sorted(a[..i + 1])
    ensures multiset(a[..]) == multiset(old(a[..]))
  {
    var j := i;
    while j > 0 && Before(a[j], a[j - 1])
      invariant 0 <= j <= i
      invariant forall p, q :: 0 <= p < q <= i && q != j ==> !Before(a[q], a[p])
      invariant multiset(a[..]) == multiset(old(a[..]))
    {
      StrLessTotal(CandidateKey(a[j]), CandidateKey(a[j - 1]));
      a[j], a[j - 1] := a[j - 1], a[j];
      j := j - 1;
    }
    forall p | 0 <= p < j ensures !Before(a[j], a[p]) {
      if p < j - 1 {
        NotAfterTransitive(a[p], a[j - 1], a[j]);
      }
    }
  }

  lemma RemoveHead<T>(s: seq<T>)
    requires s != []
    ensures multiset(s[1..]) == multiset(s) - multiset{s[0]}
  {
    assert s == [s[0]] + s[1..];
  }

  predicate Named(s: seq<Candidate>) { forall i :: 0 <= i < |s| ==> SlashFree(s[i].provider) }

  lemma SameHead(s: seq<Candidate>, t: seq<Candidate>)
    requires s != [] && t != [] && Sorted(s) && Sorted(t) && multiset(s) == multiset(t)
    requires Named(s) && Named(t)
    ensures s[0] == t[0]
  {
    assert s[0] in multiset(t) && t[0] in multiset(s);
    var i :| 0 <= i < |t| && t[i] == s[0];
    var j :| 0 <= j < |s| && s[j] == t[0];
    BeforeTotal(s[0], t[0]);
  }

  lemma SameTail(s: seq<Candidate>, t: seq<Candidate>)
    requires s != [] && t != [] && multiset(s) == multiset(t) && s[0] == t[0]
    ensures multiset(s[1..]) == multiset(t[1..])
  {
    RemoveHead(s);
    RemoveHead(t);
  }

  lemma SameLength(s: seq<Candidate>, t: seq<Candidate>)
    requires multiset(s) == multiset(t)
    ensures |s| == |t|
  {
    assert |multiset(s)| == |s| && |multiset(t)| == |t|;
  }

  lemma NamedTransfers(s: seq<Candidate>, t: seq<Candidate>)
    requires multiset(s) == multiset(t) && Named(s)
    ensures Named(t)
  {
    forall i | 0 <= i < |t| ensures SlashFree(t[i].provider) {
      assert t[i] in multiset(s);
    }
  }

  /** Only one arrangement of given candidates is sorted. */
  lemma {:induction false} SortedUnique(s: seq<Candidate>, t: seq<Candidate>)
    requires Sorted(s) && Sorted(t) && multiset(s) == multiset(t) && Named(s)
    ensures s == t
  {
    SameLength(s, t);
    if s != [] {
      NamedTransfers(s, t);
      SameHead(s, t);
      SameTail(s, t);
      SortedUnique(s[1..], t[1..]);
    }
  }

  // ---------------------------------------------------------------- eligibility

  /** What `HasProvider` reads: closed gates, operator-disabled providers, providers whose
      quota is freshly exhausted, and the configured base addresses. */
  datatype Environment = Environment(
    gateClosed: set<string>, disabled: set<string>, exhausted: set<string>, baseUrl: map<string, string>)

  predicate HasProvider(env: Environment, id: string) {
    id !in env.gateClosed && id !in env.disabled && id !in env.exhausted
    && id in env.baseUrl && env.baseUrl[id] != ""
  }

  /** Everything a ranking depends on besides the catalog: the providers, the needs of the
      request, the health table, the clock, and the bonus a model earns for this request. */
  datatype Context = Context(
    env: Environment, needs: seq<string>, health: Health.Items, now: Time, bonus: Model -> int)

  /** The scan by labels and the keyed lookup both let the route through. */
  predicate RouteAvailable(ctx: Context, p: string, id: string) {
    !Health.LabelBlocks(ctx.health, p, ctx.now) && Health.IsAvailable(ctx.health, p, id, ctx.now)
  }

  predicate Eligible(ctx: Context, m: Model) {
    m.admitted && m.autoRoutable && m.status == Active && HasProvider(ctx.env, m.provider)
    && (forall need :: need in ctx.needs ==> Supports(m, need))
    && RouteAvailable(ctx, m.provider, m.id)
  }

  function ToCandidate(ctx: Context, m: Model): Candidate {
    Candidate(m.provider, m.id, m.score + ctx.bonus(m))
  }

  function Candidates(ctx: Context, models: seq<Model>): (cs: seq<Candidate>)
    ensures forall c :: c in cs <==> exists m :: m in models && Eligible(ctx, m) && c == ToCandidate(ctx, m)
  {
    if models == [] then []
    else
      var tail := Candidates(ctx, models[1..]);
      assert models == [models[0]] + models[1..];
      if Eligible(ctx, models[0]) then [ToCandidate(ctx, models[0])] + tail else tail
  }

  lemma {:induction false} CandidatesConcat(ctx: Context, a: seq<Model>, b: seq<Model>)
    ensures Candidates(ctx, a + b) == Candidates(ctx, a) + Candidates(ctx, b)
  {
    if a == [] {
      assert a + b == b;
    } else {
      assert (a + b)[1..] == a[1..] + b;
      CandidatesConcat(ctx, a[1..], b);
    }
  }

  lemma {:induction false} CandidatesPermutation(ctx: Context, s: seq<Model>, t: seq<Model>)
    requires multiset(s) == multiset(t)
    ensures multiset(Candidates(ctx, s)) == multiset(Candidates(ctx, t))
  {
    assert |multiset(s)| == |s| && |multiset(t)| == |t|;
    if s != [] {
      assert s[0] in multiset(t);
      var i :| 0 <= i < |t| && t[i] == s[0];
      var pre, post := t[..i], t[i + 1..];
      RemoveHead(s);
      assert s == [s[0]] + s[1..];
      assert t == pre + ([t[i]] + post);
      assert multiset(pre + post) == multiset(t) - multiset{t[i]};
      CandidatesPermutation(ctx, s[1..], pre + post);
      CandidatesConcat(ctx, pre, post);
      CandidatesConcat(ctx, pre, [t[i]] + post);
      CandidatesConcat(ctx, [t[i]], post);
      CandidatesConcat(ctx, [s[0]], s[1..]);
    }
  }

  /** The ranking is a sorted arrangement of exactly the eligible models, each at its score. */
  ghost predicate IsRanking(ctx: Context, models: seq<Model>, ranked: seq<Candidate>) {
    Sorted(ranked) && multiset(ranked) == multiset(Candidates(ctx, models))
  }

  ghost predicate SlashFreeProviders(models: seq<Model>) {
    forall m :: m in models ==> SlashFree(m.provider)
  }

  lemma RankedIff(ctx: Context, models: seq<Model>, ranked: seq<Candidate>, c: Candidate)
    requires IsRanking(ctx, models, ranked)
    ensures c in ranked <==> exists m :: m in models && Eligible(ctx, m) && c == ToCandidate(ctx, m)
  {
    assert c in ranked <==> c in multiset(ranked);
    assert c in Candidates(ctx, models) <==> c in multiset(Candidates(ctx, models));
  }

  /** Any two rankings of permuted catalogs are the same list: neither the catalog order nor
      the steps of the sort leave a trace in the result. */
  lemma RankingIgnoresCatalogOrder(ctx: Context, s: seq<Model>, t: seq<Model>,
                                   rs: seq<Candidate>, rt: seq<Candidate>)
    requires SlashFreeProviders(s) && multiset(s) == multiset(t)
    requires IsRanking(ctx, s, rs) && IsRanking(ctx, t, rt)
    ensures rs == rt
  {
    CandidatesPermutation(ctx, s, t);
    forall i | 0 <= i < |rs| ensures SlashFree(rs[i].provider) {
      RankedIff(ctx, s, rs, rs[i]);
    }
    SortedUnique(rs, rt);
  }

  /** A catalog in which every route occurs once ranks every route at most once. */
  predicate DistinctRoutes(models: seq<Model>) {
    forall i, j :: 0 <= i < j < |models| ==> KeyOf(models[i]) != KeyOf(models[j])
  }

  predicate DistinctCandidates(cs: seq<Candidate>) {
    forall i, j :: 0 <= i < j < |cs| ==> CandidateKey(cs[i]) != CandidateKey(cs[j])
  }

  lemma {:induction false} CandidatesDistinct(ctx: Context, models: seq<Model>)
    requires DistinctRoutes(models)
    ensures DistinctCandidates(Candidates(ctx, models))
  {
    if models != [] {
      var tail := Candidates(ctx, models[1..]);
      CandidatesDistinct(ctx, models[1..]);
      if Eligible(ctx, models[0]) {
        var c := ToCandidate(ctx, models[0]);
        forall d | d in tail ensures CandidateKey(d) != CandidateKey(c) {
          var m :| m in models[1..] && d == ToCandidate(ctx, m);
          var i :| 0 <= i < |models[1..]| && models[1..][i] == m;
          assert models[i + 1] == m;
        }
        assert Candidates(ctx, models) == [c] + tail;
      }
    }
  }

  lemma RankedOnce(ctx: Context, models: seq<Model>, ranked: seq<Candidate>)
    requires DistinctRoutes(models) && IsRanking(ctx, models, ranked)
    ensures DistinctCandidates(ranked)
  {
    CandidatesDistinct(ctx, models);
    DistinctTransfers(Candidates(ctx, models), ranked);
  }

  lemma Occurrences(t: seq<Candidate>, i: nat, j: nat)
    requires i < j < |t| && t[i] == t[j]
    ensures multiset(t)[t[i]] >= 2
  {
    assert t == t[..j] + [t[j]] + t[j + 1..] && t[..j] == t[..i] + [t[i]] + t[i + 1..j];
  }

  lemma DistinctTransfers(s: seq<Candidate>, t: seq<Candidate>)
    requires DistinctCandidates(s) && multiset(s) == multiset(t)
    ensures DistinctCandidates(t)
  {
    forall i, j | 0 <= i < j < |t| ensures CandidateKey(t[i]) != CandidateKey(t[j]) {
      DifferentCandidates(s, t, i, j);
    }
  }

  lemma DifferentCandidates(s: seq<Candidate>, t: seq<Candidate>, i: nat, j: nat)
    requires DistinctCandidates(s) && multiset(s) == multiset(t) && i < j < |t|
    ensures CandidateKey(t[i]) != CandidateKey(t[j])
  {
    if t[i] == t[j] {
      Occurrences(t, i, j);
      AtMostOnce(s, t[i]);
    } else {
      assert t[i] in multiset(s) && t[j] in multiset(s);
      var p :| 0 <= p < |s| && s[p] == t[i];
      var q :| 0 <= q < |s| && s[q] == t[j];
      assert p != q;
    }
  }

  lemma {:induction false} AtMostOnce(s: seq<Candidate>, c: Candidate)
    requires DistinctCandidates(s)
    ensures multiset(s)[c] <= 1
  {
    if s != [] {
      assert s == [s[0]] + s[1..];
      AtMostOnce(s[1..], c);
      if s[0] == c {
        assert forall k :: 0 <= k < |s[1..]| ==> CandidateKey(s[1..][k]) != CandidateKey(s[0]);
      }
    }
  }

  // ---------------------------------------------------------------- in plain values

  /** Of two strings that agree up to a point the one with the smaller character there comes
      first, and a proper prefix before what it begins. */
  lemma {:induction false} FirstDifference(common: string, a: string, b: string)
    ensures a == "" && b != "" ==> StrLess(common + a, common + b)
    ensures a != "" && b != "" && a[0] < b[0] ==> StrLess(common + a, common + b)
    decreases |common|
  {
    if common == "" {
      assert common + a == a && common + b == b;
    } else {
      assert (common + a)[1..] == common[1..] + a && (common + b)[1..] == common[1..] + b;
      FirstDifference(common[1..], a, b);
    }
  }

  /** The higher score is ranked first, and at one score the smaller `provider/model`. */
  lemma HigherIsFirst(x: Candidate, y: Candidate, common: string, a: string, b: string)
    ensures x.score > y.score ==> Before(x, y) && !Before(y, x)
    ensures x.score == y.score && x.provider + "/" + x.model == common + a && y.provider + "/" + y.model == common + b
            && b != "" && (a == "" || a[0] < b[0]) ==>
      Before(x, y) && !Before(y, x)
  {
    FirstDifference(common, a, b);
    StrLessTotal(CandidateKey(x), CandidateKey(y));
  }

  /** What lets a model into a ranking, said of the entry, the providers and the records. */
  predicate Admitted(ctx: Context, m: Model) {
    && m.admitted && m.autoRoutable && m.status == Active
    && !(m.provider in ctx.env.gateClosed) && !(m.provider in ctx.env.disabled) && !(m.provider in ctx.env.exhausted)
    && m.provider in ctx.env.baseUrl && |ctx.env.baseUrl[m.provider]| > 0
    && forall need :: need in ctx.needs ==> Supports(m, need)
  }

  /** A record that keeps a route out at an instant. */
  predicate Holds(x: Health.RouteHealth, now: Time) { x.needsProbe || now < x.cooldownUntil }

  predicate Unheld(ctx: Context, p: string, id: string) {
    && (forall k :: k in ctx.health && ctx.health[k].provider == p && ctx.health[k].model == "*" ==>
          !Holds(ctx.health[k], ctx.now))
    && (p + "/*" in ctx.health ==> !Holds(ctx.health[p + "/*"], ctx.now))
    && (p + "/" + id in ctx.health ==> !Holds(ctx.health[p + "/" + id], ctx.now))
  }

  /** A model is ranked, at its own score plus its bonus, if and only if it is admitted, on the
      routes and active, its provider is configured and neither closed, disabled nor exhausted,
      it supports every need of the request, and no record holds it or its provider. */
  lemma RankedModel(ctx: Context, models: seq<Model>, ranked: seq<Candidate>, p: string, id: string, score: int)
    requires IsRanking(ctx, models, ranked)
    ensures Candidate(p, id, score) in ranked <==>
      exists m :: m in models && m.provider == p && m.id == id && score == m.score + ctx.bonus(m)
                  && Admitted(ctx, m) && Unheld(ctx, p, id)
  {
    RankedIff(ctx, models, ranked, Candidate(p, id, score));
    forall m | m in models ensures Eligible(ctx, m) <==> Admitted(ctx, m) && Unheld(ctx, m.provider, m.id) {
      EligibleIs(ctx, m);
    }
  }

  lemma EligibleIs(ctx: Context, m: Model)
    ensures Eligible(ctx, m) <==> Admitted(ctx, m) && Unheld(ctx, m.provider, m.id)
  {
    var p := m.provider;
    assert RouteKey(p, Health.PROVIDER_WIDE) == p + "/*";
    assert Health.LabelBlocks(ctx.health, p, ctx.now) <==>
      exists k :: k in ctx.health && ctx.health[k].provider == p && ctx.health[k].model == "*" && Holds(ctx.health[k], ctx.now);
  }
}
