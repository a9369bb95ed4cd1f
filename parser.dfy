/** The line-driven report builder of parser.go: a state machine over the
    lines of the console output that collects tests into packages and
    reattaches the free-form failure detail to the failed test it belongs to. */
module Parser {
  import opened Wrappers
  import opened Text
  import opened Reports
  import opened Markers

  /** A failed test still owed failure detail, and the countdown of failure
      markers on its header. `test` is the test's position among the
      pending tests: the source holds a pointer, and the pending tests and
      these cursors are always reset together. */
  datatype FailedTest = FailedTest(test: nat, totalFails: int)

  /** The run-time panics the source can hit: slicing a FAIL header from
      index -1 when it holds no ASCII space, and indexing the failed tests
      out of range. */
  datatype Panic = SliceOutOfRange(line: string) | IndexOutOfRange(index: int, length: nat)

  /** The builder's memory between lines. `sawTest` stands for the source's
      `test != nil`: it is set by the first header and never cleared. */
  datatype State = State(
    packages: seq<Package>,
    tests: seq<Test>,
    failedTests: seq<FailedTest>,
    currFailedTestIndex: int,
    readingFailures: bool,
    sawTest: bool)

  const Start: State := State([], [], [], -1, false, false)

  /** `parseTime`: every `.` is deleted and the rest read as an integer;
      anything Atoi rejects gives 0. Times captured by the summary pattern
      are never negative. */
  function ParseTime(time: string): (t: int)
    ensures IsSecondsText(time) ==> t >= 0
  {
    match Atoi(RemoveAll(time, '.'))
    case Some(t) =>
      assert IsSecondsText(time) ==> t >= 0 by {
        if IsSecondsText(time) {
          var digits := RemoveAll(time, '.');
          assert IsDigit(time[0]);
          assert time[0] in multiset(time);
          assert digits != [] && digits[0] in multiset(digits);
          forall c | c in multiset(digits) ensures IsDigit(c) {
            assert c != '.';
            var k :| 0 <= k < |time| && time[k] == c;
            var m := LeadingRun(time, IsDigit);
            if k != m { assert k < m || (m < k && time[m + 1..][k - m - 1] == c); }
          }
          assert digits[0] != '-' && digits[0] != '+';
        }
      }
      t
    case None => 0
  }

  /** The positions of the FAIL outcomes in `rs`, in increasing order. */
  function FailPositions(rs: seq<Result>): (ps: seq<nat>)
    ensures forall j :: 0 <= j < |ps| ==> ps[j] < |rs| && rs[ps[j]] == FAIL
    ensures forall j, k :: 0 <= j < k < |ps| ==> ps[j] < ps[k]
    ensures forall i :: 0 <= i < |rs| && rs[i] == FAIL ==> i in ps
    decreases |rs|
  {
    if rs == [] then []
    else
      var ps := FailPositions(rs[..|rs| - 1]);
      if rs[|rs| - 1] == FAIL then ps + [|rs| - 1] else ps
  }

  /** The tests the cursors designate, in cursor order. */
  function Targets(failed: seq<FailedTest>): (ts: seq<nat>)
    ensures |ts| == |failed|
    ensures forall j :: 0 <= j < |failed| ==> ts[j] == failed[j].test
  {
    seq(|failed|, j requires 0 <= j < |failed| => failed[j].test)
  }

  /** Every cursor designates one of the pending tests: what the
      builder needs so that no output is attached to a missing test. */
  predicate Bounded(s: State) {
    forall j :: 0 <= j < |s.failedTests| ==> s.failedTests[j].test < |s.tests|
  }

  /** Only FAIL tests carry output. */
  ghost predicate Quiet(tests: seq<Test>) {
    forall i :: 0 <= i < |tests| && tests[i].result != FAIL ==> tests[i].output == []
  }

  /** What every state the builder reaches satisfies: the cursors designate
      exactly the pending FAIL tests, in order, and no PASS or SKIP test,
      pending or sealed, has output. */
  ghost predicate Inv(s: State) {
    && Bounded(s)
    && Targets(s.failedTests) == FailPositions(Results(s.tests))
    && Quiet(s.tests)
    && forall k :: 0 <= k < |s.packages| ==> Quiet(s.packages[k].tests)
  }

  lemma FailPositionsSnoc(tests: seq<Test>, test: Test)
    ensures FailPositions(Results(tests + [test]))
            == FailPositions(Results(tests)) + (if test.result == FAIL then [|tests|] else [])
  {
    var rs := Results(tests + [test]);
    assert rs[..|rs| - 1] == Results(tests);
  }

  /** Under the invariant, each cursor designates a pending FAIL test. */
  lemma CursorTargetsFailedTest(s: State, j: int)
    requires Inv(s) && 0 <= j < |s.failedTests|
    ensures s.failedTests[j].test < |s.tests| && s.tests[s.failedTests[j].test].result == FAIL
  {
    assert Targets(s.failedTests)[j] == s.failedTests[j].test;
  }

  /** The state once `test` has joined the pending tests, with a cursor
      counting `fails` markers when it failed. */
  function AddTest(s: State, test: Test, fails: nat): (r: State)
    requires Bounded(s)
    ensures Bounded(r)
    ensures r.tests == s.tests + [test] && r.packages == s.packages && r.sawTest
    ensures r.failedTests == s.failedTests + (if test.result == FAIL then [FailedTest(|s.tests|, fails)] else [])
  {
    if test.result == FAIL then
      s.(tests := s.tests + [test],
         failedTests := s.failedTests + [FailedTest(|s.tests|, fails)],
         sawTest := true)
    else
      s.(tests := s.tests + [test], sawTest := true)
  }

  /** A new test without output keeps the invariant: its cursor, if any,
      comes last, as its position does among the FAIL tests. */
  lemma AddTestKeepsInv(s: State, test: Test, fails: nat)
    requires Inv(s) && test.output == []
    ensures Inv(AddTest(s, test, fails))
  {
    var r := AddTest(s, test, fails);
    FailPositionsSnoc(s.tests, test);
    assert Quiet(r.tests) by {
      forall i | 0 <= i < |r.tests| && r.tests[i].result != FAIL
        ensures r.tests[i].output == []
      {
        if i < |s.tests| { assert r.tests[i] == s.tests[i]; }
      }
    }
    if test.result == FAIL {
      assert Targets(r.failedTests) == Targets(s.failedTests) + [|s.tests|];
    } else {
      assert Targets(r.failedTests) == Targets(s.failedTests);
    }
  }

  /** A test-header line (parser.go:96-121): the test joins the pending
      ones and, if it failed, gets a cursor counting its failure markers. */
  function StartTest(p: Profile, s: State, line: string): (r: Outcome<State, Panic>)
    requires Bounded(s)
    ensures r.Ok? ==> Bounded(r.value)
    ensures r.Err? <==> HeaderResult(p, line) == FAIL && ' ' !in line
  {
    var test := Test(TestName(p, line), HeaderResult(p, line), []);
    if test.result == FAIL then
      match FailureMarkers(p, line)
      case None => Err(SliceOutOfRange(line))
      case Some(n) => Ok(AddTest(s, test, n))
    else
      Ok(AddTest(s, test, 0))
  }

  /** A package-summary line (parser.go:122-132): the pending tests become
      a package and the failure tracking starts afresh. */
  function SealPackage(s: State, summary: Summary): (r: State)
    ensures Bounded(r)
  {
    State(s.packages + [Package(summary.name, ParseTime(summary.seconds), s.tests)],
          [], [], -1, false, s.sawTest)
  }

  /** A `*` line in a Failures block (parser.go:141-148): the current
      countdown drops by one; once it is negative the cursor moves to the
      next failed test, whose countdown drops instead. */
  function CountFailure(s: State): (r: Outcome<State, Panic>)
    ensures r.Ok? ==> r.value.tests == s.tests && r.value.packages == s.packages
    ensures r.Ok? ==> Targets(r.value.failedTests) == Targets(s.failedTests)
  {
    var i := s.currFailedTestIndex;
    if !(0 <= i < |s.failedTests|) then Err(IndexOutOfRange(i, |s.failedTests|))
    else
      var failed := s.failedTests[i := s.failedTests[i].(totalFails := s.failedTests[i].totalFails - 1)];
      assert Targets(failed) == Targets(s.failedTests);
      if failed[i].totalFails >= 0 then
        Ok(s.(failedTests := failed))
      else if i + 1 >= |failed| then
        Err(IndexOutOfRange(i + 1, |failed|))
      else
        var r := s.(failedTests := failed[i + 1 := failed[i + 1].(totalFails := failed[i + 1].totalFails - 1)],
                    currFailedTestIndex := i + 1);
        assert Targets(r.failedTests) == Targets(s.failedTests);
        Ok(r)
  }

  /** A non-empty line in a Failures block (parser.go:150-153): its trimmed
      text is appended to the output of the current cursor's test. */
  function AppendOutput(s: State, text: string): (r: Outcome<State, Panic>)
    requires Bounded(s)
    ensures r.Ok? ==> Bounded(r.value)
  {
    var i := s.currFailedTestIndex;
    if !(0 <= i < |s.failedTests|) then Err(IndexOutOfRange(i, |s.failedTests|))
    else
      var t := s.failedTests[i].test;
      Ok(s.(tests := s.tests[t := s.tests[t].(output := s.tests[t].output + [text])]))
  }

  /** Any line read while inside a Failures block (parser.go:140-154). */
  function ReadFailure(s: State, line: string): (r: Outcome<State, Panic>)
    requires Bounded(s)
    ensures r.Ok? ==> Bounded(r.value)
  {
    var counted := if StartsFailure(line) then CountFailure(s) else Ok(s);
    match counted
    case Err(e) => Err(e)
    case Ok(next) => if |line| > 0 then AppendOutput(next, TrimSpace(line)) else Ok(next)
  }

  /** One line of input (parser.go:96-155). The checks come in this order:
      header, package summary, then, only once some header has been seen,
      the assertions line, the `Failures:` line and failure detail. */
  function Step(p: Profile, s: State, line: string): (r: Outcome<State, Panic>)
    requires Bounded(s)
    ensures r.Ok? ==> Bounded(r.value)
  {
    if IsTestHeader(line) then StartTest(p, s, line)
    else match MatchPackage(line)
      case Some(summary) => Ok(SealPackage(s, summary))
      case None =>
        if !s.sawTest then Ok(s)
        else if IsAssertionsLine(line) then Ok(s.(readingFailures := false))
        else if IsFailuresLine(line) then Ok(s.(readingFailures := true, currFailedTestIndex := 0))
        else if s.readingFailures then ReadFailure(s, line)
        else Ok(s)
  }

  /** The builder's state after `lines`, starting from `s`; the first panic
      stops it. */
  function RunFrom(p: Profile, s: State, lines: seq<string>): (r: Outcome<State, Panic>)
    requires Bounded(s)
    ensures r.Ok? ==> Bounded(r.value)
    decreases |lines|
  {
    if lines == [] then Ok(s)
    else
      match RunFrom(p, s, lines[..|lines| - 1])
      case Err(e) => Err(e)
      case Ok(mid) => Step(p, mid, lines[|lines| - 1])
  }

  lemma StartTestKeepsInv(p: Profile, s: State, line: string)
    requires Inv(s) && StartTest(p, s, line).Ok?
    ensures Inv(StartTest(p, s, line).value)
  {
    var test := Test(TestName(p, line), HeaderResult(p, line), []);
    if test.result == FAIL {
      AddTestKeepsInv(s, test, FailureMarkers(p, line).value);
    } else {
      AddTestKeepsInv(s, test, 0);
    }
  }

  lemma SealPackageKeepsInv(s: State, summary: Summary)
    requires Inv(s)
    ensures Inv(SealPackage(s, summary))
  {
    var r := SealPackage(s, summary);
    assert Results(r.tests) == [];
    forall k | 0 <= k < |r.packages| ensures Quiet(r.packages[k].tests) {
      if k < |s.packages| { assert r.packages[k] == s.packages[k]; }
    }
  }

  lemma CountFailureKeepsInv(s: State)
    requires Inv(s) && CountFailure(s).Ok?
    ensures Inv(CountFailure(s).value)
  {
  }

  lemma AppendOutputKeepsInv(s: State, text: string)
    requires Inv(s) && AppendOutput(s, text).Ok?
    ensures Inv(AppendOutput(s, text).value)
  {
    var r := AppendOutput(s, text).value;
    CursorTargetsFailedTest(s, s.currFailedTestIndex);
    assert Results(r.tests) == Results(s.tests);
  }

  lemma ReadFailureKeepsInv(s: State, line: string)
    requires Inv(s) && ReadFailure(s, line).Ok?
    ensures Inv(ReadFailure(s, line).value)
  {
    var next := if StartsFailure(line) then CountFailure(s).value else s;
    if StartsFailure(line) { CountFailureKeepsInv(s); }
    if |line| > 0 { AppendOutputKeepsInv(next, TrimSpace(line)); }
  }

  /** Every line keeps the invariant. */
  lemma StepKeepsInv(p: Profile, s: State, line: string)
    requires Inv(s) && Step(p, s, line).Ok?
    ensures Inv(Step(p, s, line).value)
  {
    if IsTestHeader(line) {
      StartTestKeepsInv(p, s, line);
    } else if MatchPackage(line).Some? {
      SealPackageKeepsInv(s, MatchPackage(line).value);
    } else if s.sawTest && !IsAssertionsLine(line) && !IsFailuresLine(line) && s.readingFailures {
      ReadFailureKeepsInv(s, line);
    }
  }

  /** Every state a run reaches from an invariant state keeps it. */
  lemma {:induction false} RunKeepsInv(p: Profile, s: State, lines: seq<string>)
    requires Inv(s) && RunFrom(p, s, lines).Ok?
    ensures Inv(RunFrom(p, s, lines).value)
    decreases |lines|
  {
    if lines != [] {
      var init := lines[..|lines| - 1];
      RunKeepsInv(p, s, init);
      StepKeepsInv(p, RunFrom(p, s, init).value, lines[|lines| - 1]);
    }
  }

  /** What `Parse` returns for a complete input: the sealed packages, or
      the panic that stopped it. */
  function ParseReport(useDot: bool, lines: seq<string>): Outcome<Report, Panic> {
    match RunFrom(Initialize(useDot), Start, lines)
    case Ok(s) => Ok(Report(s.packages))
    case Err(e) => Err(e)
  }

  /** Running one more line is one more `Step` after the run so far. */
  lemma RunFromSnoc(p: Profile, s: State, lines: seq<string>, line: string)
    requires Bounded(s)
    ensures RunFrom(p, s, lines).Err? ==> RunFrom(p, s, lines + [line]) == RunFrom(p, s, lines)
    ensures RunFrom(p, s, lines).Ok?
            ==> RunFrom(p, s, lines + [line]) == Step(p, RunFrom(p, s, lines).value, line)
  {
    assert (lines + [line])[..|lines|] == lines;
  }

  /** Once a run has panicked, further lines do not change that. */
  lemma {:induction false} PanicIsFinal(p: Profile, s: State, lines: seq<string>, more: seq<string>)
    requires Bounded(s) && RunFrom(p, s, lines).Err?
    ensures RunFrom(p, s, lines + more) == RunFrom(p, s, lines)
    decreases |more|
  {
    if more == [] {
      assert lines + more == lines;
    } else {
      var init := more[..|more| - 1];
      PanicIsFinal(p, s, lines, init);
      RunFromSnoc(p, s, lines + init, more[|more| - 1]);
      assert (lines + init) + [more[|more| - 1]] == lines + more;
    }
  }

  /** A test-header line (parser.go:96-121): the new test is appended to
      the pending tests and, when it failed, a cursor counting the failure
      markers after the header's last space joins the failed tests. */
  method StartTestLine(p: Profile, s: State, line: string) returns (r: Outcome<State, Panic>)
    requires Bounded(s)
    ensures r == StartTest(p, s, line)
  {
    var tests := s.tests;
    var failedTests := s.failedTests;
    var test := Test(TestName(p, line), HeaderResult(p, line), []);
    var fails := 0;
    if test.result == FAIL {
      var space := LastIndex(line, ' ');
      if space < 0 {
        return Err(SliceOutOfRange(line));
      }
      fails := Count(line[space..], p.failure);
      assert FailureMarkers(p, line) == Some(fails);
      failedTests := failedTests + [FailedTest(|tests|, fails)];
    }
    tests := tests + [test];
    r := Ok(s.(tests := tests, failedTests := failedTests, sawTest := true));
    assert r == Ok(AddTest(s, test, fails));
  }

  /** One line inside a Failures block (parser.go:141-153), updating the
      countdowns, the cursor and the current test's output in place. */
  method ReadFailureLine(s: State, line: string) returns (r: Outcome<State, Panic>)
    requires Bounded(s)
    ensures r == ReadFailure(s, line)
  {
    var tests := s.tests;
    var failedTests := s.failedTests;
    var currFailedTestIndex := s.currFailedTestIndex;
    if StartsFailure(line) {
      if !(0 <= currFailedTestIndex < |failedTests|) {
        return Err(IndexOutOfRange(currFailedTestIndex, |failedTests|));
      }
      var i := currFailedTestIndex;
      failedTests := failedTests[i := failedTests[i].(totalFails := failedTests[i].totalFails - 1)];
      if failedTests[i].totalFails < 0 {
        currFailedTestIndex := i + 1;
        if currFailedTestIndex >= |failedTests| {
          return Err(IndexOutOfRange(currFailedTestIndex, |failedTests|));
        }
        var j := currFailedTestIndex;
        failedTests := failedTests[j := failedTests[j].(totalFails := failedTests[j].totalFails - 1)];
      }
    }
    ghost var counted := s.(failedTests := failedTests, currFailedTestIndex := currFailedTestIndex);
    assert StartsFailure(line) ==> CountFailure(s) == Ok(counted);
    if |line| > 0 {
      if !(0 <= currFailedTestIndex < |failedTests|) {
        return Err(IndexOutOfRange(currFailedTestIndex, |failedTests|));
      }
      var t := failedTests[currFailedTestIndex].test;
      tests := tests[t := tests[t].(output := tests[t].output + [TrimSpace(line)])];
    }
    r := Ok(s.(tests := tests, failedTests := failedTests, currFailedTestIndex := currFailedTestIndex));
  }

  /** The run over the first `n + 1` lines is one step after the run
      over the first `n`. */
  lemma NextLine(p: Profile, lines: seq<string>, n: nat, s: State)
    requires n < |lines| && RunFrom(p, Start, lines[..n]) == Ok(s)
    ensures Bounded(s) && RunFrom(p, Start, lines[..n + 1]) == Step(p, s, lines[n])
  {
    assert lines[..n + 1] == lines[..n] + [lines[n]];
    RunFromSnoc(p, Start, lines[..n], lines[n]);
  }

  /** A run that panics within the first `n` lines panics with the same
      error over all of them. */
  lemma PanicStops(p: Profile, lines: seq<string>, n: nat)
    requires n <= |lines| && RunFrom(p, Start, lines[..n]).Err?
    ensures RunFrom(p, Start, lines) == RunFrom(p, Start, lines[..n])
  {
    PanicIsFinal(p, Start, lines[..n], lines[n..]);
    assert lines[..n] + lines[n..] == lines;
  }

  /** The body of the source's read loop for one line (parser.go:96-155):
      the first pattern that matches decides what the line does. */
  method ParseLine(p: Profile, s: State, line: string) returns (r: Outcome<State, Panic>)
    requires Bounded(s)
    ensures r == Step(p, s, line)
  {
    if IsTestHeader(line) {
      r := StartTestLine(p, s, line);
    } else if MatchPackage(line).Some? {
      var summary := MatchPackage(line).value;
      r := Ok(State(s.packages + [Package(summary.name, ParseTime(summary.seconds), s.tests)],
                    [], [], -1, false, s.sawTest));
    } else if s.sawTest {
      if IsAssertionsLine(line) {
        r := Ok(s.(readingFailures := false));
      } else if IsFailuresLine(line) {
        r := Ok(s.(readingFailures := true, currFailedTestIndex := 0));
      } else if s.readingFailures {
        r := ReadFailureLine(s, line);
      } else {
        r := Ok(s);
      }
    } else {
      r := Ok(s);
    }
  }

  /** The read loop of `Parse` (parser.go:87-156) over the lines of the
      input, updating the builder's variables in place as the source does. */
  method ParseLines(profile: Profile, lines: seq<string>) returns (r: Outcome<State, Panic>)
    ensures r == RunFrom(profile, Start, lines)
  {
    var packages: seq<Package> := [];
    var tests: seq<Test> := [];
    var failedTests: seq<FailedTest> := [];
    var currFailedTestIndex := -1;
    var sawTest := false;
    var readingFailures := false;
    var n := 0;
    while n < |lines|
      invariant 0 <= n <= |lines|
      invariant RunFrom(profile, Start, lines[..n])
                == Ok(State(packages, tests, failedTests, currFailedTestIndex, readingFailures, sawTest))
    {
      var before := State(packages, tests, failedTests, currFailedTestIndex, readingFailures, sawTest);
      NextLine(profile, lines, n, before);
      var next := ParseLine(profile, before, lines[n]);
      if next.Err? {
        PanicStops(profile, lines, n + 1);
        return Err(next.error);
      }
      packages, tests, failedTests := next.value.packages, next.value.tests, next.value.failedTests;
      currFailedTestIndex, readingFailures, sawTest := next.value.currFailedTestIndex, next.value.readingFailures, next.value.sawTest;
      n := n + 1;
    }
    assert lines[..n] == lines;
    r := Ok(State(packages, tests, failedTests, currFailedTestIndex, readingFailures, sawTest));
  }

  /** `Parse` (parser.go:69-159): the markers are chosen, the lines are
      read, and the report holds the sealed packages only. */
  method Parse(useDot: bool, lines: seq<string>) returns (r: Outcome<Report, Panic>)
    ensures r == ParseReport(useDot, lines)
  {
    var profile := Initialize(useDot);
    var run := ParseLines(profile, lines);
    if run.Err? {
      return Err(run.error);
    }
    r := Ok(Report(run.value.packages));
  }
}
