/** The test-run dashboard's bookkeeping (monitoring/test_monitor.py, TestMonitor).
    Clock readings are passed in as `now` (seconds); WebSocket clients are
    identified by handles. */
module TestDashboard {
  import opened Wrappers
  import Bounded

  /** WebSocket clients compared by identity. */
  type Client = nat

  const DetailLimit: nat := 20
  const DefaultTotalTests: int := 103

  /** One reported test: name, status, duration and when it was reported. */
  datatype Detail = Detail(name: string, status: string, duration: real, timestamp: real)

  /** Which counter a reported status feeds: only the exact strings count. */
  datatype Outcome = Passed | Failed | Skipped | Uncounted

  function OutcomeOf(status: string): Outcome
  {
    if status == "PASSED" then Passed
    else if status == "FAILED" then Failed
    else if status == "SKIPPED" then Skipped
    else Uncounted
  }

  /** How many reports in `history` have outcome `o`. */
  function CountOutcome(history: seq<Detail>, o: Outcome): (n: nat)
    ensures n <= |history|
  {
    if history == [] then 0
    else CountOutcome(history[..|history| - 1], o) + (if OutcomeOf(history[|history| - 1].status) == o then 1 else 0)
  }

  /** Appending one report adds one to its own outcome's count only. */
  lemma CountOutcomeSnoc(history: seq<Detail>, d: Detail, o: Outcome)
    ensures CountOutcome(history + [d], o) == CountOutcome(history, o) + (if OutcomeOf(d.status) == o then 1 else 0)
  {
    assert (history + [d])[..|history|] == history;
  }

  /** Position of the first occurrence of `x`. */
  function FirstIndex(xs: seq<Client>, x: Client): (i: nat)
    requires x in xs
    ensures i < |xs| && xs[i] == x && x !in xs[..i]
  {
    if xs[0] == x then 0 else 1 + FirstIndex(xs[1..], x)
  }

  /** list.remove: drops the first occurrence of `x`, keeping the rest in order. */
  function RemoveFirst(xs: seq<Client>, x: Client): (r: seq<Client>)
    requires x in xs
    ensures |r| == |xs| - 1
  {
    var i := FirstIndex(xs, x);
    xs[..i] + xs[i + 1..]
  }

  /** Removing the first occurrence takes exactly one copy of `x` out. */
  lemma RemoveFirstMultiset(xs: seq<Client>, x: Client)
    requires x in xs
    ensures multiset(RemoveFirst(xs, x)) == multiset(xs) - multiset{x}
  {
    var i := FirstIndex(xs, x);
    var before, after := xs[..i], xs[i + 1..];
    assert xs == before + ([x] + after);
    assert multiset(xs) == multiset(before) + (multiset{x} + multiset(after));
    assert multiset(RemoveFirst(xs, x)) == multiset(before) + multiset(after);
  }

  /** The test_results dictionary. `currentTest`, `startTime`, `endTime` and
      `testCommand` are None until first set. */
  datatype TestResults = TestResults(
    totalTests: int, passed: nat, failed: nat, skipped: nat,
    currentTest: Option<string>, startTime: Option<real>, endTime: Option<real>,
    duration: real, coverage: real, testCommand: Option<string>, details: seq<Detail>)

  const InitialResults: TestResults :=
    TestResults(0, 0, 0, 0, None, None, None, 0.0, 0.0, None, [])

  /** The results' counters count the reports of each status in `history`,
      and their detail list is the newest 20 of those reports. */
  ghost predicate Tracks(r: TestResults, history: seq<Detail>)
  {
    r.details == Bounded.Window(history, DetailLimit) &&
    r.passed == CountOutcome(history, Passed) &&
    r.failed == CountOutcome(history, Failed) &&
    r.skipped == CountOutcome(history, Skipped)
  }

  /** Recording one report, as update_test_progress does, keeps the results in
      step with the history extended by that report. */
  lemma ReportKeepsTracking(r: TestResults, r2: TestResults, history: seq<Detail>, d: Detail)
    requires Tracks(r, history)
    requires r2.passed == r.passed + (if OutcomeOf(d.status) == Passed then 1 else 0)
    requires r2.failed == r.failed + (if OutcomeOf(d.status) == Failed then 1 else 0)
    requires r2.skipped == r.skipped + (if OutcomeOf(d.status) == Skipped then 1 else 0)
    requires r2.details == Bounded.Push(r.details, d, DetailLimit)
    ensures Tracks(r2, history + [d])
  {
    CountOutcomeSnoc(history, d, Passed);
    CountOutcomeSnoc(history, d, Failed);
    CountOutcomeSnoc(history, d, Skipped);
    Bounded.PushWindow(history, d, DetailLimit);
  }

  class TestMonitor {
    var activeConnections: seq<Client>
    var testResults: TestResults
    var isRunning: bool
    /** Every report since the current run started, oldest first. */
    ghost var history: seq<Detail>

    /** The counters count the reports of each status since the run began, and
        the detail list is the newest 20 of those reports. */
    ghost predicate Valid()
      reads this
    {
      Tracks(testResults, history)
    }

    constructor ()
      ensures Valid()
      ensures activeConnections == [] && testResults == InitialResults && !isRunning
    {
      activeConnections := [];
      testResults := InitialResults;
      isRunning := false;
      history := [];
    }

    /** The list append done once the client's handshake is accepted. */
    method Connect(client: Client)
      modifies this`activeConnections
      ensures activeConnections == old(activeConnections) + [client]
    {
      activeConnections := activeConnections + [client];
    }

    /** disconnect: removes the client's first entry if it has one; otherwise nothing changes. */
    method Disconnect(client: Client)
      modifies this`activeConnections
      ensures client in old(activeConnections) ==> activeConnections == RemoveFirst(old(activeConnections), client)
      ensures client !in old(activeConnections) ==> activeConnections == old(activeConnections)
    {
      if client in activeConnections {
        activeConnections := RemoveFirst(activeConnections, client);
      }
    }

    /** start_test_run: zeroed counters, empty details, the run marked as going;
        coverage is the one entry the update leaves alone.  The expected
        total defaults to 103 tests. */
    method StartTestRun(command: string, now: real, total: int := DefaultTotalTests)
      modifies this`testResults, this`isRunning, this`history
      ensures Valid()
      ensures testResults == TestResults(total, 0, 0, 0, Some("Starting test suite..."), Some(now), None,
                                         0.0, old(testResults.coverage), Some(command), [])
      ensures isRunning && history == []
    {
      testResults := testResults.(totalTests := total, passed := 0, failed := 0, skipped := 0,
                                  currentTest := Some("Starting test suite..."), startTime := Some(now),
                                  endTime := None, duration := 0.0, testCommand := Some(command), details := []);
      isRunning := true;
      history := [];
    }

    /** update_test_progress: the matching counter goes up by one (no counter
        for any other status), the report joins the details, and only the
        newest 20 details are kept.  The duration defaults to 0. */
    method UpdateTestProgress(name: string, status: string, now: real, testDuration: real := 0.0)
      requires Valid()
      modifies this`testResults, this`history
      ensures Valid()
      ensures history == old(history) + [Detail(name, status, testDuration, now)]
      ensures testResults.currentTest == Some(name)
      ensures testResults.passed == old(testResults.passed) + (if OutcomeOf(status) == Passed then 1 else 0)
      ensures testResults.failed == old(testResults.failed) + (if OutcomeOf(status) == Failed then 1 else 0)
      ensures testResults.skipped == old(testResults.skipped) + (if OutcomeOf(status) == Skipped then 1 else 0)
      ensures testResults.details == Bounded.Push(old(testResults.details), Detail(name, status, testDuration, now), DetailLimit)
      ensures testResults.(currentTest := old(testResults.currentTest), passed := old(testResults.passed),
                           failed := old(testResults.failed), skipped := old(testResults.skipped),
                           details := old(testResults.details)) == old(testResults)
    {
      var r := testResults.(currentTest := Some(name));
      match OutcomeOf(status) {
        case Passed => r := r.(passed := r.passed + 1);
        case Failed => r := r.(failed := r.failed + 1);
        case Skipped => r := r.(skipped := r.skipped + 1);
        case Uncounted =>
      }
      var d := Detail(name, status, testDuration, now);
      var details := r.details + [d];
      if |details| > DetailLimit {
        details := details[|details| - DetailLimit..];
      }
      testResults := r.(details := details);
      ReportKeepsTracking(old(testResults), testResults, history, d);
      history := history + [d];
    }

    /** finish_test_run: stops the run and records the end, the coverage and,
        when the run had a start time, the elapsed seconds; counters and
        details are kept.  The coverage defaults to 0. */
    method FinishTestRun(now: real, coveragePercent: real := 0.0)
      requires Valid()
      modifies this`testResults, this`isRunning
      ensures Valid()
      ensures !isRunning
      ensures testResults == old(testResults).(endTime := Some(now), currentTest := Some("Test run complete"),
                                               coverage := coveragePercent,
                                               duration := if old(testResults.startTime).Some?
                                                           then now - old(testResults.startTime).value
                                                           else old(testResults.duration))
    {
      var r := testResults.(endTime := Some(now), currentTest := Some("Test run complete"), coverage := coveragePercent);
      if r.startTime.Some? {
        r := r.(duration := r.endTime.value - r.startTime.value);
      }
      testResults := r;
      isRunning := false;
    }

    /** update_coverage: only the coverage changes. */
    method UpdateCoverage(coveragePercent: real)
      requires Valid()
      modifies this`testResults
      ensures Valid()
      ensures testResults == old(testResults).(coverage := coveragePercent)
    {
      testResults := testResults.(coverage := coveragePercent);
    }
  }

  /** The counters never add up to more than the reports received, and they
      account for all of them when no report had another status. */
  lemma {:induction false} CountersBounded(history: seq<Detail>)
    ensures CountOutcome(history, Passed) + CountOutcome(history, Failed) + CountOutcome(history, Skipped) <= |history|
    ensures CountOutcome(history, Uncounted) == 0 ==>
      CountOutcome(history, Passed) + CountOutcome(history, Failed) + CountOutcome(history, Skipped) == |history|
  {
    if history != [] {
      CountersBounded(history[..|history| - 1]);
    }
  }

  /** A run of 25 reports keeps reports 5 to 24. */
  lemma TwentyFiveReports(ds: seq<Detail>)
    requires |ds| == 25
    ensures Bounded.PushAll([], ds, DetailLimit) == ds[5..]
  {
    Bounded.PushAllIsWindow(ds, DetailLimit);
  }
}
