/** The production-readiness score and the fixed deployment advice
    (monitoring/production_optimization.py, ProductionOptimizer). The
    optimisation results are a table of categories, each a table of checks;
    only each check's "status" entry matters. */
module Readiness {
  import opened Wrappers
  import opened Seqs

  /** A check's "status" entry, None when the result has none. */
  type Entry = Option<string>

  datatype Grade = Excellent | Good | Other

  /** result.get("status", "UNKNOWN") compared with "EXCELLENT" and "GOOD". */
  function GradeOf(e: Entry): Grade
  {
    var status := e.GetOr("UNKNOWN");
    if status == "EXCELLENT" then Excellent else if status == "GOOD" then Good else Other
  }

  /** What each grade is worth, in percent. */
  function Weight(g: Grade): nat
  {
    match g
    case Excellent => 100
    case Good => 80
    case Other => 50
  }

  /** The sum of the checks' weights. */
  function Points(xs: seq<Entry>): nat
  {
    if xs == [] then 0 else Points(xs[..|xs| - 1]) + Weight(GradeOf(xs[|xs| - 1]))
  }

  /** How many checks have grade `g`. */
  function CountGrade(xs: seq<Entry>, g: Grade): (n: nat)
    ensures n <= |xs|
  {
    if xs == [] then 0 else CountGrade(xs[..|xs| - 1], g) + (if GradeOf(xs[|xs| - 1]) == g then 1 else 0)
  }

  /** One more check adds one to its own grade's count only. */
  lemma CountGradeSnoc(xs: seq<Entry>, e: Entry, g: Grade)
    ensures CountGrade(xs + [e], g) == CountGrade(xs, g) + (if GradeOf(e) == g then 1 else 0)
  {
    assert (xs + [e])[..|xs|] == xs;
  }

  /** The excellent and good checks are among the checks. */
  lemma {:induction false} GradesWithinTotal(xs: seq<Entry>)
    ensures CountGrade(xs, Excellent) + CountGrade(xs, Good) <= |xs|
  {
    if xs != [] {
      GradesWithinTotal(xs[..|xs| - 1]);
    }
  }

  /** The source's formula from the three counts is the sum of the weights. */
  lemma {:induction false} PointsByCounts(xs: seq<Entry>)
    ensures CountGrade(xs, Excellent) + CountGrade(xs, Good) <= |xs|
    ensures Points(xs) == 100 * CountGrade(xs, Excellent) + 80 * CountGrade(xs, Good)
                          + 50 * (|xs| - CountGrade(xs, Excellent) - CountGrade(xs, Good))
  {
    GradesWithinTotal(xs);
    if xs != [] {
      PointsByCounts(xs[..|xs| - 1]);
    }
  }

  /** Every check is worth between 50 and 100. */
  lemma {:induction false} PointsBounds(xs: seq<Entry>)
    ensures 50 * |xs| <= Points(xs) <= 100 * |xs|
  {
    if xs != [] {
      PointsBounds(xs[..|xs| - 1]);
    }
  }

  /** Python's round() on n / d: to the nearest whole number, halves to even. */
  function RoundHalfEven(n: nat, d: nat): nat
    requires d > 0
  {
    var q, r := n / d, n % d;
    if 2 * r < d then q
    else if 2 * r > d then q + 1
    else if q % 2 == 0 then q
    else q + 1
  }

  /** The rounded value is within a half of n / d, and a tie goes to the even neighbour. */
  lemma RoundHalfEvenNearest(n: nat, d: nat)
    requires d > 0
    ensures 2 * d * RoundHalfEven(n, d) <= 2 * n + d && 2 * n <= 2 * d * RoundHalfEven(n, d) + d
    ensures 2 * d * RoundHalfEven(n, d) == 2 * n + d || 2 * n == 2 * d * RoundHalfEven(n, d) + d
      ==> RoundHalfEven(n, d) % 2 == 0
  {
    var q, r := n / d, n % d;
    var dq := d * q;
    assert n == dq + r;
    assert 2 * d * q == 2 * dq;
    assert 2 * d * (q + 1) == 2 * dq + 2 * d;
  }

  /** Multiplying by a number keeps the order. */
  lemma MulLe(d: nat, a: nat, b: nat)
    ensures a <= b ==> d * a <= d * b
  {
    if a <= b {
      var k := b - a;
      assert d * b == d * a + d * k;
    }
  }

  /** n between lo * d and hi * d has its quotient between lo and hi, and a
      quotient of hi leaves no remainder. */
  lemma QuotientWithin(n: nat, d: nat, lo: nat, hi: nat)
    requires d > 0 && lo * d <= n <= hi * d
    ensures lo <= n / d <= hi
    ensures n / d == hi ==> n % d == 0
  {
    var q, r := n / d, n % d;
    assert n == d * q + r;
    MulLe(d, q + 1, lo);
    MulLe(d, hi + 1, q);
    assert d * (q + 1) == d * q + d;
    assert d * (hi + 1) == d * hi + d;
  }

  /** n between lo * d and hi * d rounds to a value between lo and hi. */
  lemma RoundWithin(n: nat, d: nat, lo: nat, hi: nat)
    requires d > 0 && lo * d <= n <= hi * d
    ensures lo <= RoundHalfEven(n, d) <= hi
  {
    QuotientWithin(n, d, lo, hi);
  }

  /** A whole multiple of d rounds to itself. */
  lemma RoundExact(k: nat, d: nat)
    requires d > 0
    ensures RoundHalfEven(k * d, d) == k
  {
    RoundWithin(k * d, d, k, k);
  }

  /** calculate_readiness_score on the results flattened to one list. */
  function Score(xs: seq<Entry>): nat
  {
    if xs == [] then 0 else RoundHalfEven(Points(xs), |xs|)
  }

  /** No checks score 0; otherwise the score is between 50 and 100. */
  lemma ScoreBounds(xs: seq<Entry>)
    ensures xs == [] ==> Score(xs) == 0
    ensures xs != [] ==> 50 <= Score(xs) <= 100
  {
    if xs != [] {
      PointsBounds(xs);
      RoundWithin(Points(xs), |xs|, 50, 100);
    }
  }

  /** All checks of one grade score that grade's weight: 100 for all
      excellent, 80 for all good. */
  lemma {:induction false} PointsUniform(xs: seq<Entry>, g: Grade)
    requires forall k :: 0 <= k < |xs| ==> GradeOf(xs[k]) == g
    ensures Points(xs) == Weight(g) * |xs|
  {
    if xs != [] {
      PointsUniform(xs[..|xs| - 1], g);
    }
  }

  lemma UniformScore(xs: seq<Entry>, g: Grade)
    requires xs != []
    requires forall k :: 0 <= k < |xs| ==> GradeOf(xs[k]) == g
    ensures Score(xs) == Weight(g)
  {
    PointsUniform(xs, g);
    RoundExact(Weight(g), |xs|);
  }

  /** calculate_readiness_score: counts the checks and the excellent and good
      ones, then rounds the weighted mean. */
  method CalculateReadinessScore(optimizations: seq<seq<Entry>>) returns (score: nat)
    ensures score == Score(Flatten(optimizations))
  {
    var total, excellent, good := 0, 0, 0;
    for i := 0 to |optimizations|
      invariant total == |Flatten(optimizations[..i])|
      invariant excellent == CountGrade(Flatten(optimizations[..i]), Excellent)
      invariant good == CountGrade(Flatten(optimizations[..i]), Good)
    {
      var tests := optimizations[i];
      ghost var done := Flatten(optimizations[..i]);
      assert done + tests[..0] == done;
      for j := 0 to |tests|
        invariant total == |done| + j
        invariant excellent == CountGrade(done + tests[..j], Excellent)
        invariant good == CountGrade(done + tests[..j], Good)
      {
        AppendPrefixSnoc(done, tests, j);
        CountGradeSnoc(done + tests[..j], tests[j], Excellent);
        CountGradeSnoc(done + tests[..j], tests[j], Good);
        total := total + 1;
        match GradeOf(tests[j]) {
          case Excellent => excellent := excellent + 1;
          case Good => good := good + 1;
          case Other =>
        }
      }
      assert tests[..|tests|] == tests;
      FlattenPrefixSnoc(optimizations, i);
    }
    assert optimizations[..|optimizations|] == optimizations;
    if total == 0 {
      return 0;
    }
    PointsByCounts(Flatten(optimizations));
    score := RoundHalfEven(excellent * 100 + good * 80 + (total - excellent - good) * 50, total);
  }

  datatype Priority = Required | Recommended

  datatype ChecklistItem = Item(category: string, item: string, status: Priority)

  const Checklist: seq<ChecklistItem> := [
    Item("Security", "Enable HTTPS/WSS encryption", Required),
    Item("Security", "Configure firewall rules", Required),
    Item("Security", "Set up authentication", Required),
    Item("Performance", "Configure load balancing", Recommended),
    Item("Performance", "Set up connection pooling", Recommended),
    Item("Performance", "Optimize buffer sizes", Recommended),
    Item("Monitoring", "Deploy monitoring dashboard", Required),
    Item("Monitoring", "Configure alerting", Required),
    Item("Monitoring", "Set up log aggregation", Recommended),
    Item("Reliability", "Implement health checks", Required),
    Item("Reliability", "Configure auto-scaling", Recommended),
    Item("Reliability", "Set up backup systems", Required),
    Item("Documentation", "Update API documentation", Required),
    Item("Documentation", "Create deployment guide", Required),
    Item("Documentation", "Document troubleshooting", Recommended)
  ]

  /** generate_deployment_checklist: the fixed fifteen items. */
  function DeploymentChecklist(): (r: seq<ChecklistItem>)
    ensures |r| == 15
  {
    Checklist
  }

  const OptimizationAdvice: seq<string> := [
    "\U{1F680} Deploy with production-grade WSGI/ASGI server (e.g., Gunicorn + Uvicorn)",
    "\U{1F512} Enable WSS (WebSocket Secure) for all connections",
    "\U{26A1} Implement connection pooling for database and external services",
    "\U{1F4CA} Set up comprehensive monitoring with Prometheus + Grafana",
    "\U{1F6A8} Configure alerting for critical metrics (error rate, latency, memory)",
    "\U{1F504} Implement circuit breaker pattern for external service calls",
    "\U{1F4BE} Configure Redis for session storage and caching",
    "\U{1F310} Set up CDN for static assets",
    "\U{2696}\U{FE0F} Deploy behind load balancer (NGINX or AWS ALB)",
    "\U{1F4C8} Enable auto-scaling based on CPU and connection metrics",
    "\U{1F525} Configure firewall to restrict access to necessary ports only",
    "\U{1F4DD} Implement structured logging with correlation IDs",
    "\U{1F3E5} Set up health check endpoints for container orchestration",
    "\U{1F4BF} Regular automated backups of critical data",
    "\U{1F50D} Conduct regular security audits and penetration testing"
  ]

  /** generate_optimization_recommendations: the fixed advice, whatever the results. */
  function OptimizationRecommendations(optimizations: seq<seq<Entry>>): (r: seq<string>)
    ensures |r| == 15
  {
    OptimizationAdvice
  }

  lemma AdviceIgnoresResults(a: seq<seq<Entry>>, b: seq<seq<Entry>>)
    ensures OptimizationRecommendations(a) == OptimizationRecommendations(b)
  {
  }
}
