/** The overall risk rating of the WebSocket security audit and its fixed
    advice list (monitoring/security_audit.py, SecurityAuditor). The audit
    results are a table of categories, each a table of tests; only each
    test's "status" entry matters, and the names are not modelled. */
module SecurityAudit {
  import opened Wrappers
  import opened Seqs

  /** A test result's "status" entry, None when the result has none. */
  type Entry = Option<string>

  datatype Risk = Low | Medium | High | Critical

  function Rank(r: Risk): nat
  {
    match r
    case Low => 0
    case Medium => 1
    case High => 2
    case Critical => 3
  }

  /** Only a status of exactly "FAIL" is a failure ("ERROR" and the rest are not). */
  predicate IsFailure(e: Entry)
  {
    e == Some("FAIL")
  }

  /** How many of the results failed. */
  function Failures(xs: seq<Entry>): (n: nat)
    ensures n <= |xs|
  {
    if xs == [] then 0 else Failures(xs[..|xs| - 1]) + (if IsFailure(xs[|xs| - 1]) then 1 else 0)
  }

  /** One more result adds one to the failures exactly when it failed. */
  lemma FailuresSnoc(xs: seq<Entry>, e: Entry)
    ensures Failures(xs + [e]) == Failures(xs) + (if IsFailure(e) then 1 else 0)
  {
    assert (xs + [e])[..|xs|] == xs;
  }

  /** The rating from the counts, as the source computes it: no failure is
      low; otherwise the failed fraction picks the band (at most a fifth is
      medium, at most a half high, more is critical). */
  function RiskBand(failed: nat, total: nat): Risk
    requires failed <= total
  {
    if failed == 0 then Low
    else if failed as real / total as real <= 0.2 then Medium
    else if failed as real / total as real <= 0.5 then High
    else Critical
  }

  /** Comparing a fraction with a bound is comparing numerator with bound times denominator. */
  lemma FractionAtMost(failed: nat, total: nat, bound: real)
    requires 0 < total
    ensures failed as real / total as real <= bound <==> failed as real <= bound * total as real
  {
    var q, t := failed as real / total as real, total as real;
    assert q * t == failed as real;
    if q <= bound {
      assert (bound - q) * t >= 0.0;
    } else {
      assert (q - bound) * t > 0.0;
    }
  }

  /** The bands in whole numbers: a fifth and a half by cross-multiplying. */
  lemma RiskBandByCounts(failed: nat, total: nat)
    requires failed <= total
    ensures RiskBand(failed, total) ==
      if failed == 0 then Low
      else if 5 * failed <= total then Medium
      else if 2 * failed <= total then High
      else Critical
  {
    if failed > 0 {
      FractionAtMost(failed, total, 0.2);
      FractionAtMost(failed, total, 0.5);
    }
  }

  /** With the number of tests fixed, more failures never lower the rating. */
  lemma RiskMonotone(f1: nat, f2: nat, total: nat)
    requires f1 <= f2 <= total
    ensures Rank(RiskBand(f1, total)) <= Rank(RiskBand(f2, total))
  {
    RiskBandByCounts(f1, total);
    RiskBandByCounts(f2, total);
  }

  /** One failure in five tests is medium, one in four high, two in three critical. */
  lemma RiskExamples()
    ensures RiskBand(0, 0) == Low && RiskBand(1, 5) == Medium
    ensures RiskBand(1, 4) == High && RiskBand(1, 2) == High && RiskBand(2, 3) == Critical
  {
    RiskBandByCounts(1, 5);
    RiskBandByCounts(1, 4);
    RiskBandByCounts(1, 2);
    RiskBandByCounts(2, 3);
  }

  /** calculate_risk_level: counts every result in every category and the
      failures among them, then rates the counts. */
  method CalculateRiskLevel(results: seq<seq<Entry>>) returns (risk: Risk)
    ensures risk == RiskBand(Failures(Flatten(results)), |Flatten(results)|)
    ensures risk == Low <==> Failures(Flatten(results)) == 0
  {
    var total, failed := 0, 0;
    for i := 0 to |results|
      invariant total == |Flatten(results[..i])|
      invariant failed == Failures(Flatten(results[..i]))
    {
      var tests := results[i];
      ghost var done := Flatten(results[..i]);
      assert done + tests[..0] == done;
      for j := 0 to |tests|
        invariant total == |done| + j
        invariant failed == Failures(done + tests[..j])
      {
        AppendPrefixSnoc(done, tests, j);
        FailuresSnoc(done + tests[..j], tests[j]);
        total := total + 1;
        if IsFailure(tests[j]) {
          failed := failed + 1;
        }
      }
      assert tests[..|tests|] == tests;
      FlattenPrefixSnoc(results, i);
    }
    assert results[..|results|] == results;
    if failed == 0 {
      risk := Low;
    } else if failed as real / total as real <= 0.2 {
      risk := Medium;
    } else if failed as real / total as real <= 0.5 {
      risk := High;
    } else {
      risk := Critical;
    }
  }

  const Recommendations: seq<string> := [
    "\U{1F510} Implement WSS (WebSocket Secure) for encrypted connections",
    "\U{1F511} Use strong session ID generation with cryptographically secure random numbers",
    "\U{23F0} Implement proper session timeout (5 minutes for inactive sessions)",
    "\U{1F6E1}\U{FE0F} Add rate limiting to prevent abuse (100 messages/second recommended)",
    "\U{1F4CF} Implement message size limits (1MB maximum recommended)",
    "\U{1F310} Validate WebSocket origins to prevent unauthorized access",
    "\U{1F50D} Sanitize and validate all input data to prevent XSS and injection attacks",
    "\U{1F3AB} Use secure authentication tokens with sufficient entropy",
    "\U{1F464} Implement proper PII handling and data masking",
    "\U{1F4C5} Establish data retention policies (90 days recommended)",
    "\U{1F525} Configure firewall to allow only necessary ports",
    "\U{26A1} Implement DDoS protection and connection limits",
    "\U{1F310} Configure proper CORS policies",
    "\U{1F4CA} Enable security monitoring and logging",
    "\U{1F504} Regular security audits and penetration testing"
  ]

  /** generate_security_recommendations: the fixed advice, whatever the results. */
  function SecurityRecommendations(results: seq<seq<Entry>>): (r: seq<string>)
    ensures |r| == 15
  {
    Recommendations
  }

  /** The advice does not depend on the audit results. */
  lemma RecommendationsIgnoreResults(a: seq<seq<Entry>>, b: seq<seq<Entry>>)
    ensures SecurityRecommendations(a) == SecurityRecommendations(b)
  {
  }
}
