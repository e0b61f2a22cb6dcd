/** The bonuses a candidate earns on top of its base score: past results
    (`internal/runtime/learning.go`, `learningBonus`) and trusted knowledge
    (`KnowledgeBonus` in `internal/routing/service.go`). */
module Scores {
  import opened Keys
  import Knowledge
  import opened CatalogModel

  // ---------------------------------------------------------------- learning

  datatype Stat = Stat(requests: nat, success: nat, failures: nat, latency: nat)
  type Stats = map<string, Stat>

  datatype Sample = Sample(key: string, ok: bool, latency: nat)

  function Recorded(items: Stats, e: Sample): Stats {
    var x := if e.key in items then items[e.key] else Stat(0, 0, 0, 0);
    items[e.key := Stat(x.requests + 1,
                        x.success + (if e.ok then 1 else 0),
                        x.failures + (if e.ok then 0 else 1),
                        x.latency + e.latency)]
  }

  class Learning {
    var items: Stats

    constructor ()
      ensures items == map[]
    {
      items := map[];
    }

    method Record(key: string, ok: bool, latency: nat)
      modifies this
      ensures items == Recorded(old(items), Sample(key, ok, latency))
    {
      var x := if key in items then items[key] else Stat(0, 0, 0, 0);
      x := x.(requests := x.requests + 1);
      if ok {
        x := x.(success := x.success + 1);
      } else {
        x := x.(failures := x.failures + 1);
      }
      x := x.(latency := x.latency + latency);
      items := items[key := x];
    }
  }

  function RecordAll(log: seq<Sample>): Stats {
    if log == [] then map[] else Recorded(RecordAll(log[..|log| - 1]), log[|log| - 1])
  }

  function Of(log: seq<Sample>, key: string): seq<Sample> {
    if log == [] then []
    else Of(log[..|log| - 1], key) + (if log[|log| - 1].key == key then [log[|log| - 1]] else [])
  }

  function Oks(log: seq<Sample>): nat {
    if log == [] then 0 else Oks(log[..|log| - 1]) + (if log[|log| - 1].ok then 1 else 0)
  }

  function TotalLatency(log: seq<Sample>): nat {
    if log == [] then 0 else TotalLatency(log[..|log| - 1]) + log[|log| - 1].latency
  }

  /** The totals of some results. */
  function Totals(log: seq<Sample>): Stat
    requires Oks(log) <= |log|
  {
    Stat(|log|, Oks(log), |log| - Oks(log), TotalLatency(log))
  }

  lemma TotalsOfOneMore(log: seq<Sample>, e: Sample)
    requires Oks(log) <= |log|
    ensures Oks(log + [e]) == Oks(log) + (if e.ok then 1 else 0)
    ensures TotalLatency(log + [e]) == TotalLatency(log) + e.latency
  {
    assert (log + [e])[..|log|] == log;
  }

  /** The table holds for `key` the totals of `own`. */
  predicate Holds(stats: Stats, key: string, own: seq<Sample>) {
    Oks(own) <= |own| && (key in stats <==> own != []) && (key in stats ==> stats[key] == Totals(own))
  }

  lemma OneOwnResult(stats: Stats, key: string, own: seq<Sample>, e: Sample)
    requires Holds(stats, key, own) && e.key == key
    ensures Holds(Recorded(stats, e), key, own + [e])
  {
    TotalsOfOneMore(own, e);
  }

  /** After any log of results each key holds the totals of its own results, and only keys
      with results are present. */
  lemma {:induction false} StatsAreTheLog(log: seq<Sample>, key: string)
    ensures Holds(RecordAll(log), key, Of(log, key))
  {
    if log != [] {
      var init, e := log[..|log| - 1], log[|log| - 1];
      StatsAreTheLog(init, key);
      if e.key == key {
        OneOwnResult(RecordAll(init), key, Of(init, key), e);
      } else {
        assert Of(log, key) == Of(init, key);
      }
    }
  }

  lemma {:induction false} LogIsCounted(log: seq<Sample>)
    ensures Counted(RecordAll(log))
  {
    if log != [] {
      LogIsCounted(log[..|log| - 1]);
    }
  }

  predicate Counted(stats: Stats) {
    forall k :: k in stats ==> stats[k].requests == stats[k].success + stats[k].failures
  }

  /** Looks for the route first and for the bare model name second. */
  function LearningBonus(stats: Stats, p: string, m: string): int {
    var key := RouteKey(p, m);
    if key !in stats && m !in stats then 0
    else
      var stat := if key in stats then stats[key] else stats[m];
      if stat.requests == 0 then 0
      else
        var success := (stat.success as real / stat.requests as real * 30.0).Floor;
        var avg := stat.latency / stat.requests;
        success + (if avg > 5000 then 0 else if avg > 1000 then 5 else 10)
  }

  /** At most 40 points; all 40 only for a route that never failed and answers within a
      second on average; none at all only for a route with no results or a slow one with
      fewer than one success in thirty. */
  lemma LearningBonusRange(stats: Stats, p: string, m: string)
    requires Counted(stats)
    ensures 0 <= LearningBonus(stats, p, m) <= 40
    ensures RouteKey(p, m) in stats && stats[RouteKey(p, m)].requests > 0 ==>
      var s := stats[RouteKey(p, m)];
      && (LearningBonus(stats, p, m) == 40 <==> s.failures == 0 && s.latency / s.requests <= 1000)
      && (LearningBonus(stats, p, m) == 0 <==> 30 * s.success < s.requests && s.latency / s.requests > 5000)
  {
    var key := RouteKey(p, m);
    if key in stats || m in stats {
      var s := if key in stats then stats[key] else stats[m];
      if s.requests > 0 {
        SuccessShare(s.success, s.requests);
      }
    }
  }

  lemma MulLt(a: real, b: real, n: real)
    requires a < b && 0.0 < n
    ensures a * n < b * n
  {
    assert (b - a) * n > 0.0;
    assert (b - a) * n == b * n - a * n;
  }

  lemma CancelLe(a: real, b: real, n: real)
    requires 0.0 < n && a * n <= b * n
    ensures a <= b
  {
    if b < a { MulLt(b, a, n); }
  }

  lemma CancelLt(a: real, b: real, n: real)
    requires 0.0 < n && a * n < b * n
    ensures a < b
  {
    if b < a { MulLt(b, a, n); }
  }

  lemma IntMulLe(a: int, b: int, n: nat)
    requires a <= b
    ensures a * n <= b * n
  {
  }

  lemma AsReal(q: int, r: int)
    ensures (q * r) as real == q as real * r as real
  {}

  lemma ShareFloor(s: real, n: real, q: int)
    requires n > 0.0
    requires q as real * n <= 30.0 * s < (q + 1) as real * n
    ensures (s / n * 30.0).Floor == q
  {
    var share := s / n;
    assert share * n == s;
    assert share * 30.0 * n == 30.0 * s;
    CancelLe(q as real, share * 30.0, n);
    CancelLt(share * 30.0, (q + 1) as real, n);
  }

  /** The truncated thirtieths are an integer division. */
  lemma SuccessShare(success: nat, requests: nat)
    requires 0 < requests && success <= requests
    ensures
      var points := (success as real / requests as real * 30.0).Floor;
      points == (30 * success) / requests
      && 0 <= points <= 30 && (points == 30 <==> success == requests) && (points == 0 <==> 30 * success < requests)
  {
    var q := (30 * success) / requests;
    assert q * requests <= 30 * success < (q + 1) * requests;
    AsReal(q, requests);
    AsReal(q + 1, requests);
    AsReal(30, success);
    ShareFloor(success as real, requests as real, q);
    if q >= 31 { IntMulLe(31, q, requests); }
    if q >= 1 { IntMulLe(1, q, requests); }
    if q <= 29 { IntMulLe(q + 1, 30, requests); }
  }

  // ---------------------------------------------------------------- knowledge

  predicate Applies(k: Knowledge.Item, signature: string, model: string, now: Time) {
    k.status == Knowledge.Trusted && k.expiresAt.Some? && k.expiresAt.value > now
    && k.recommendedModel != "" && k.signature == signature && k.recommendedModel == model
  }

  function Truncate(x: real): int { if x >= 0.0 then x.Floor else -((-x).Floor) }

  function SuccessRate(k: Knowledge.Item): real {
    if k.validated > 0 then k.successful as real / k.validated as real else 1.0
  }

  function SampleWeight(k: Knowledge.Item): real {
    if k.validated > 10 then 10.0 else k.validated as real
  }

  /** Full weight until the last quarter of the thirty days. */
  function Freshness(expiresAt: Time, now: Time): real {
    var left := (expiresAt - now) as real / HOUR as real / 720.0;
    if left < 0.25 then left * 4.0 else 1.0
  }

  function Product(c: real, r: real, f: real, w: real): real { c * r * f * w * 100.0 }

  function Points(k: Knowledge.Item, now: Time): int
    requires k.expiresAt.Some? && k.expiresAt.value > now
  {
    Truncate(Product(k.confidence, SuccessRate(k), Freshness(k.expiresAt.value, now), SampleWeight(k) / 10.0))
  }

  function PointsIfApplies(k: Knowledge.Item, signature: string, model: string, now: Time): int {
    if Applies(k, signature, model, now) then Points(k, now) else 0
  }

  /** The bonus of a model for a request. */
  function Bonus(items: Knowledge.Items, stats: Stats, highRisk: bool, signature: string, m: Model, now: Time): int {
    (if highRisk then 0 else KeyedBonus(items, signature, m.id, now)) + LearningBonus(stats, m.provider, m.id)
  }

  /** The one record that can apply, found by its key. */
  function KeyedBonus(items: Knowledge.Items, signature: string, model: string, now: Time): int {
    var id := signature + "|" + model;
    if id in items then PointsIfApplies(items[id], signature, model, now) else 0
  }

  /** `KnowledgeBonus` scans every record and adds up; with records filed under their own
      signature and model the scan is a lookup, whatever the map order. */
  method KnowledgeBonus(items: Knowledge.Items, highRisk: bool, signature: string, model: string, now: Time)
    returns (bonus: int)
    requires Knowledge.AllLabelled(items)
    ensures bonus == if highRisk then 0 else KeyedBonus(items, signature, model, now)
  {
    if highRisk {
      return 0;
    }
    var target := signature + "|" + model;
    bonus := 0;
    var todo := items.Keys;
    while todo != {}
      invariant todo <= items.Keys
      invariant bonus == if target in todo then 0 else KeyedBonus(items, signature, model, now)
    {
      var id :| id in todo;
      todo := todo - {id};
      var k := items[id];
      assert Knowledge.Labelled(id, k);
      if k.status != Knowledge.Trusted || k.expiresAt.None? || !(k.expiresAt.value > now)
         || k.recommendedModel == "" || k.signature != signature {
        continue;
      }
      if k.recommendedModel != model {
        continue;
      }
      bonus := bonus + Points(k, now);
    }
  }

  lemma UnitProduct(a: real, b: real)
    requires 0.0 <= a <= 1.0 && 0.0 <= b <= 1.0
    ensures 0.0 <= a * b <= 1.0
  {
    if 0.0 < b {
      if a < 1.0 { MulLt(a, 1.0, b); }
      if 0.0 < a { MulLt(0.0, a, b); }
      assert a * b <= 1.0 * b == b;
    }
  }

  lemma PointsRange(k: Knowledge.Item, now: Time)
    requires k.expiresAt.Some? && k.expiresAt.value > now
    requires 0.0 < k.confidence <= 1.0 && 0 <= k.successful <= k.validated
    ensures 0 <= Points(k, now) <= 100
    ensures k.validated == 0 ==> Points(k, now) == 0
  {
    SuccessRateRange(k);
    FreshnessRange(k.expiresAt.value, now);
    UnitProducts(k.confidence, SuccessRate(k), Freshness(k.expiresAt.value, now), SampleWeight(k) / 10.0);
  }

  lemma UnitProducts(c: real, r: real, f: real, w: real)
    requires 0.0 <= c <= 1.0 && 0.0 <= r <= 1.0 && 0.0 <= f <= 1.0 && 0.0 <= w <= 1.0
    ensures 0.0 <= Product(c, r, f, w) <= 100.0
    ensures w == 0.0 ==> Product(c, r, f, w) == 0.0
  {
    UnitProduct(c, r);
    UnitProduct(c * r, f);
    UnitProduct(c * r * f, w);
  }

  lemma SuccessRateRange(k: Knowledge.Item)
    requires 0 <= k.successful <= k.validated
    ensures 0.0 <= SuccessRate(k) <= 1.0
  {
    if k.validated > 0 {
      var s, n := k.successful as real, k.validated as real;
      ShareOfWhole(s, n);
    }
  }

  lemma ShareOfWhole(s: real, n: real)
    requires 0.0 <= s <= n && 0.0 < n
    ensures 0.0 <= s / n <= 1.0
  {
    assert (s / n) * n == s;
    CancelLe(0.0, s / n, n);
    CancelLe(s / n, 1.0, n);
  }

  lemma FreshnessRange(expiresAt: Time, now: Time)
    requires expiresAt > now
    ensures 0.0 <= Freshness(expiresAt, now) <= 1.0
  {
  }

  /** In every run of the knowledge store a bonus lies between 0 and 100. */
  lemma KnowledgeBonusRange(es: seq<Knowledge.Event>, signature: string, model: string, now: Time)
    requires forall e :: e in es ==> Knowledge.FromReviews(e)
    ensures 0 <= KeyedBonus(Knowledge.Run(map[], es), signature, model, now) <= 100
  {
    var items := Knowledge.Run(map[], es);
    Knowledge.RunKeepsOneLog(map[], es);
    Knowledge.RunKeepsLabels(map[], es);
    var id := signature + "|" + model;
    if id in items && Applies(items[id], signature, model, now) {
      PointsRange(items[id], now);
    }
  }

  // ---------------------------------------------------------------- in figures

  /** One result adds one to its key, on the side it belongs to, and its latency; no other key
      changes. */
  lemma OneResult(items: Stats, e: Sample)
    ensures
      var after := Recorded(items, e);
      var x := if e.key in items then items[e.key] else Stat(0, 0, 0, 0);
      && after.Keys == items.Keys + {e.key} && (forall k :: k in items && k != e.key ==> after[k] == items[k])
      && after[e.key].requests == x.requests + 1 && after[e.key].latency == x.latency + e.latency
      && (e.ok ==> after[e.key].success == x.success + 1 && after[e.key].failures == x.failures)
      && (!e.ok ==> after[e.key].success == x.success && after[e.key].failures == x.failures + 1)
  {
  }

  /** The points of one entry of the table: thirtieths of its success rate, and ten, five or
      none for an average up to a second, up to five, and above. */
  lemma LearningPoints(stats: Stats, p: string, m: string, s: Stat)
    requires s.requests > 0 && s.success <= s.requests
    requires if p + "/" + m in stats then stats[p + "/" + m] == s else m in stats && stats[m] == s
    ensures
      var share, avg := (30 * s.success) / s.requests, s.latency / s.requests;
      && (avg <= 1000 ==> LearningBonus(stats, p, m) == share + 10)
      && (1000 < avg <= 5000 ==> LearningBonus(stats, p, m) == share + 5)
      && (avg > 5000 ==> LearningBonus(stats, p, m) == share)
  {
    SuccessShare(s.success, s.requests);
  }

  /** Nothing is learned of a route that has no entry, under its own name or else that of its
      model, or one without results. */
  lemma NothingLearned(stats: Stats, p: string, m: string)
    requires if p + "/" + m in stats then stats[p + "/" + m].requests == 0 else m in stats ==> stats[m].requests == 0
    ensures LearningBonus(stats, p, m) == 0
  {
  }

  /** A quarter of thirty days, in nanoseconds. */
  const QUARTER: nat := 648_000_000_000_000

  lemma Quotient(s: real, n: real, c: real)
    requires n > 0.0
    ensures c * (s / n) * 100.0 == 100.0 * c * s / n
  {
    var r := s / n;
    assert r * n == s;
    assert 100.0 * c * s == (100.0 * c * r) * n;
    assert (100.0 * c * s) / n == 100.0 * c * r;
  }

  lemma HoursAndQuarters(x: real)
    ensures x / 3_600_000_000_000.0 / 720.0 * 4.0 == x / 648_000_000_000_000.0
    ensures x / 3_600_000_000_000.0 / 720.0 < 0.25 <==> x < 648_000_000_000_000.0
    ensures x >= 0.0 ==> x / 648_000_000_000_000.0 >= 0.0
  {
  }

  lemma FreshShare(expiresAt: Time, now: Time)
    requires expiresAt > now
    ensures expiresAt - now >= QUARTER ==> Freshness(expiresAt, now) == 1.0
    ensures expiresAt - now < QUARTER ==> Freshness(expiresAt, now) == (expiresAt - now) as real / QUARTER as real
    ensures Freshness(expiresAt, now) >= 0.0
  {
    assert HOUR as real == 3_600_000_000_000.0 && QUARTER as real == 648_000_000_000_000.0;
    HoursAndQuarters((expiresAt - now) as real);
    FreshnessRange(expiresAt, now);
  }

  lemma Regrouped(c: real, r: real, f: real, w: real)
    ensures c * r * f * w * 100.0 == (c * r * 100.0) * w * f
  {
  }

  lemma NotNegative(c: real, s: real, n: real)
    requires c >= 0.0 && s >= 0.0 && n > 0.0
    ensures 100.0 * c * s / n >= 0.0
  {
    var q := 100.0 * c * s / n;
    assert c * s >= 0.0;
    assert q * n == 100.0 * (c * s);
    CancelLe(0.0, q, n);
  }

  lemma PositiveProduct(a: real, b: real)
    requires a >= 0.0 && b >= 0.0
    ensures a * b >= 0.0
  {
  }

  lemma WholeProduct(c: real, r: real, s: real, n: real, f: real, w: real)
    requires c >= 0.0 && s >= 0.0 && n > 0.0 && f >= 0.0 && w >= 0.0 && r == s / n
    ensures Product(c, r, f, w) == (100.0 * c * s / n) * w * f >= 0.0
  {
    Regrouped(c, r, f, w);
    Quotient(s, n, c);
    NotNegative(c, s, n);
    PositiveProduct(100.0 * c * s / n, w);
    PositiveProduct(100.0 * c * s / n * w, f);
  }

  lemma SmallSamples(c: real, s: real, n: real)
    requires n > 0.0
    ensures (100.0 * c * s / n) * (n / 10.0) == 10.0 * c * s
  {
    var q := 100.0 * c * s / n;
    assert q * n == 100.0 * c * s;
    assert q * (n / 10.0) == (q * n) / 10.0;
  }

  lemma ProductOfMany(c: real, r: real, s: real, n: real, full: real, f: real)
    requires c >= 0.0 && s >= 0.0 && n > 0.0 && f >= 0.0 && r == s / n && full == 100.0 * c * s / n
    ensures Product(c, r, f, 1.0) == full * f >= 0.0
  {
    WholeProduct(c, r, s, n, f, 1.0);
  }

  lemma ProductOfFew(c: real, r: real, s: real, n: real, full: real, f: real)
    requires c >= 0.0 && s >= 0.0 && n > 0.0 && f >= 0.0 && r == s / n && full == 10.0 * c * s
    ensures Product(c, r, f, n / 10.0) == full * f >= 0.0
  {
    WholeProduct(c, r, s, n, f, n / 10.0);
    SmallSamples(c, s, n);
  }

  /** The points of a record: a hundred for full confidence and no failure in ten validations
      or more, in proportion to the confidence and to the share of successes; below ten
      validations only the successes count, ten points each; and in the last quarter of the
      thirty days they go down in proportion to the time left. */
  lemma PointsAre(k: Knowledge.Item, now: Time, full: real, worth: real)
    requires k.expiresAt.Some? && k.expiresAt.value > now
    requires k.confidence >= 0.0 && k.successful >= 0 && k.validated >= 1
    requires
      full == if k.validated >= 10 then 100.0 * k.confidence * k.successful as real / k.validated as real
              else 10.0 * k.confidence * k.successful as real
    requires
      var left := k.expiresAt.value - now;
      worth == if left >= QUARTER then 1.0 else left as real / QUARTER as real
    ensures Points(k, now) == (full * worth).Floor
  {
    var c, s, n := k.confidence, k.successful as real, k.validated as real;
    FreshShare(k.expiresAt.value, now);
    FreshnessRange(k.expiresAt.value, now);
    assert Freshness(k.expiresAt.value, now) == worth && SuccessRate(k) == s / n;
    if k.validated >= 10 {
      assert SampleWeight(k) / 10.0 == 1.0;
      ProductOfMany(c, SuccessRate(k), s, n, full, worth);
    } else {
      assert SampleWeight(k) / 10.0 == n / 10.0;
      ProductOfFew(c, SuccessRate(k), s, n, full, worth);
    }
  }

  lemma NoValidationsNoPoints(k: Knowledge.Item, now: Time)
    requires k.expiresAt.Some? && k.expiresAt.value > now && k.validated == 0
    ensures Points(k, now) == 0
  {
  }

  lemma LargerProduct(a: real, b: real, f: real)
    requires a <= b && f >= 0.0
    ensures a * f <= b * f
  {
    assert (b - a) * f >= 0.0;
    assert (b - a) * f == b * f - a * f;
  }

  lemma LargerShare(s: real, t: real, n: real)
    requires 0.0 <= s <= t && n > 0.0
    ensures 0.0 <= s / n <= t / n
  {
    assert (s / n) * n == s && (t / n) * n == t;
    CancelLe(s / n, t / n, n);
    CancelLe(0.0, s / n, n);
  }

  lemma LargerPoints(c: real, a: real, b: real, f: real, w: real)
    requires c >= 0.0 && 0.0 <= a <= b && f >= 0.0 && w >= 0.0
    ensures 0.0 <= Product(c, a, f, w) <= Product(c, b, f, w)
  {
    PositiveProduct(c, f);
    PositiveProduct(c * f, w);
    var d := c * f * w;
    LargerProduct(a, b, d);
    PositiveProduct(a, d);
    assert c * a * f * w == a * d && c * b * f * w == b * d;
  }

  /** More successes in as many validations never give fewer points. */
  lemma MoreSuccessesCount(k: Knowledge.Item, better: Knowledge.Item, now: Time)
    requires k.expiresAt.Some? && k.expiresAt.value > now && k.confidence >= 0.0 && k.validated >= 1
    requires 0 <= k.successful <= better.successful
    requires better == k.(successful := better.successful)
    ensures Points(k, now) <= Points(better, now)
  {
    FreshnessRange(k.expiresAt.value, now);
    LargerShare(k.successful as real, better.successful as real, k.validated as real);
    LargerPoints(k.confidence, SuccessRate(k), SuccessRate(better), Freshness(k.expiresAt.value, now),
                 SampleWeight(k) / 10.0);
  }

  /** The bonus of a model: none from knowledge for a request of high risk; otherwise the points
      of the record of signature and model, if it is trusted, not expired and says so itself; and
      what was learned in any case. */
  lemma BonusIs(items: Knowledge.Items, stats: Stats, signature: string, m: Model, now: Time, k: Knowledge.Item)
    requires signature + "|" + m.id in items && items[signature + "|" + m.id] == k
    ensures
      var learned := LearningBonus(stats, m.provider, m.id);
      && Bonus(items, stats, true, signature, m, now) == learned
      && (k.status == Knowledge.Trusted && k.expiresAt.Some? && k.expiresAt.value > now
          && k.recommendedModel == m.id != "" && k.signature == signature ==>
            Bonus(items, stats, false, signature, m, now) == Points(k, now) + learned)
      && (k.status != Knowledge.Trusted || k.expiresAt.None? || k.expiresAt.value <= now
          || k.recommendedModel != m.id || m.id == "" || k.signature != signature ==>
            Bonus(items, stats, false, signature, m, now) == learned)
  {
  }

  lemma NoRecordNoBonus(items: Knowledge.Items, stats: Stats, highRisk: bool, signature: string, m: Model, now: Time)
    requires signature + "|" + m.id !in items
    ensures Bonus(items, stats, highRisk, signature, m, now) == LearningBonus(stats, m.provider, m.id)
  {
  }
}
