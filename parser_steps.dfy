/** What one line does to the builder's state, case by case, as the read
    loop of parser.go:96-154 decides it; and what that means for the
    failure detail of a whole report. */
module ParserSteps {
  import opened Wrappers
  import opened Text
  import opened Reports
  import opened Markers
  import opened Parser
  import opened Patterns

  /** A line no earlier branch of the loop claims: inside a Failures block
      it is failure detail. */
  predicate IsDetailLine(line: string) {
    !IsTestHeader(line) && MatchPackage(line).None? && !IsAssertionsLine(line) && !IsFailuresLine(line)
  }

  /** A header line adds its test, with the name and outcome the header
      gives it and no output, to the pending tests; a FAIL test also gets a
      cursor counting the failure markers after the header's last space.
      The source panics on a FAIL header without any space. */
  lemma HeaderStep(p: Profile, s: State, line: string)
    requires Bounded(s) && IsTestHeader(line)
    ensures Step(p, s, line).Err? <==> HeaderResult(p, line) == FAIL && ' ' !in line
    ensures Step(p, s, line).Ok? ==>
              var r := Step(p, s, line).value;
              && r.tests == s.tests + [Test(TestName(p, line), HeaderResult(p, line), [])]
              && r.failedTests == s.failedTests
                 + (if HeaderResult(p, line) == FAIL
                    then [FailedTest(|s.tests|, multiset(line[LastIndex(line, ' ')..])[p.failure])]
                    else [])
              && r.packages == s.packages && r.sawTest
              && r.currFailedTestIndex == s.currFailedTestIndex && r.readingFailures == s.readingFailures
  {
  }

  /** A package-summary line seals the pending tests, outputs included,
      into a package named and timed by the line's captures, appended after
      the earlier packages; the failure tracking starts afresh (no cursors,
      cursor index -1, not reading failures), and `sawTest` is kept. */
  lemma SummaryStep(p: Profile, s: State, line: string)
    requires Bounded(s) && MatchPackage(line).Some?
    ensures Step(p, s, line).Ok?
    ensures var r := Step(p, s, line).value;
            var sm := MatchPackage(line).value;
            && r.packages == s.packages + [Package(sm.name, ParseTime(sm.seconds), s.tests)]
            && r.tests == [] && r.failedTests == [] && r.currFailedTestIndex == -1
            && !r.readingFailures && r.sawTest == s.sawTest
  {
    LinePatternsDisjoint(line);
  }

  /** Before the first header, every line but a summary is ignored. */
  lemma IgnoredBeforeFirstTest(p: Profile, s: State, line: string)
    requires Bounded(s) && !s.sawTest && !IsTestHeader(line) && MatchPackage(line).None?
    ensures Step(p, s, line) == Ok(s)
  {
  }

  /** Once a header has been seen, an assertions line ends failure reading
      and changes nothing else. */
  lemma AssertionsLineStopsReading(p: Profile, s: State, line: string)
    requires Bounded(s) && s.sawTest && IsAssertionsLine(line)
    ensures Step(p, s, line) == Ok(s.(readingFailures := false))
  {
    LinePatternsDisjoint(line);
  }

  /** Once a header has been seen, a `Failures:` line starts failure
      reading at the first cursor. */
  lemma FailuresLineStartsReading(p: Profile, s: State, line: string)
    requires Bounded(s) && s.sawTest && IsFailuresLine(line)
    ensures Step(p, s, line) == Ok(s.(readingFailures := true, currFailedTestIndex := 0))
  {
    LinePatternsDisjoint(line);
  }

  /** Outside a Failures block, a line no pattern claims is ignored. */
  lemma DetailIgnoredOutsideFailures(p: Profile, s: State, line: string)
    requires Bounded(s) && !s.readingFailures && IsDetailLine(line)
    ensures Step(p, s, line) == Ok(s)
  {
  }

  /** Inside a Failures block, a detail line that does not open a new
      failure appends its trimmed text to the output of the test under the
      cursor, and to no other test; an empty line does nothing, and a
      cursor outside the failed tests is the source's index panic. */
  lemma DetailLineAppendsToCursor(p: Profile, s: State, line: string)
    requires Bounded(s) && s.sawTest && s.readingFailures && IsDetailLine(line) && !StartsFailure(line)
    ensures |line| == 0 ==> Step(p, s, line) == Ok(s)
    ensures |line| > 0 ==> (Step(p, s, line).Err? <==> !(0 <= s.currFailedTestIndex < |s.failedTests|))
    ensures |line| > 0 && Step(p, s, line).Ok? ==>
              var r := Step(p, s, line).value;
              var t := s.failedTests[s.currFailedTestIndex].test;
              && r.failedTests == s.failedTests && r.currFailedTestIndex == s.currFailedTestIndex
              && r.packages == s.packages && r.readingFailures && r.sawTest
              && |r.tests| == |s.tests|
              && r.tests[t] == s.tests[t].(output := s.tests[t].output + [TrimSpace(line)])
              && forall i :: 0 <= i < |s.tests| && i != t ==> r.tests[i] == s.tests[i]
  {
  }

  /** A `*` line is never empty, so its text is always appended. */
  lemma StartsFailureNonEmpty(line: string)
    requires StartsFailure(line)
    ensures |line| > 0
  {
    assert |TrimSpace(line)| > 0;
  }

  /** The countdown of a `*` line, on its own. */
  lemma CountFailureMoves(s: State)
    ensures var i := s.currFailedTestIndex;
            CountFailure(s).Err?
            <==> !(0 <= i < |s.failedTests|) || (s.failedTests[i].totalFails <= 0 && i + 1 >= |s.failedTests|)
    ensures CountFailure(s).Ok? ==>
              var r := CountFailure(s).value;
              var i := s.currFailedTestIndex;
              var j := if s.failedTests[i].totalFails > 0 then i else i + 1;
              && r.currFailedTestIndex == j
              && |r.failedTests| == |s.failedTests|
              && (forall k :: 0 <= k < |s.failedTests| ==>
                    r.failedTests[k].test == s.failedTests[k].test
                    && r.failedTests[k].totalFails
                       == s.failedTests[k].totalFails - (if k == i || k == j then 1 else 0))
              && r.tests == s.tests && r.packages == s.packages
              && r.readingFailures == s.readingFailures && r.sawTest == s.sawTest
  {
  }

  /** The output append of a non-empty detail line, on its own. */
  lemma AppendOutputAppends(s: State, text: string)
    requires Bounded(s)
    ensures AppendOutput(s, text).Err? <==> !(0 <= s.currFailedTestIndex < |s.failedTests|)
    ensures AppendOutput(s, text).Ok? ==>
              var r := AppendOutput(s, text).value;
              var t := s.failedTests[s.currFailedTestIndex].test;
              && r.failedTests == s.failedTests && r.currFailedTestIndex == s.currFailedTestIndex
              && r.packages == s.packages && r.readingFailures == s.readingFailures && r.sawTest == s.sawTest
              && |r.tests| == |s.tests|
              && r.tests[t] == s.tests[t].(output := s.tests[t].output + [text])
              && forall m :: 0 <= m < |s.tests| && m != t ==> r.tests[m] == s.tests[m]
  {
  }

  /** Inside a Failures block, a `*` line uses up one failure marker of
      the cursor's test. When that test had none left, the cursor moves to
      the next failed test, which loses one instead. Either way the line
      then becomes output of the test the cursor now designates. Running
      off the end of the cursors is the source's index panic. */
  lemma StarLineCountsDown(p: Profile, s: State, line: string)
    requires Bounded(s) && s.sawTest && s.readingFailures && IsDetailLine(line) && StartsFailure(line)
    ensures var i := s.currFailedTestIndex;
            Step(p, s, line).Err?
            <==> !(0 <= i < |s.failedTests|) || (s.failedTests[i].totalFails <= 0 && i + 1 >= |s.failedTests|)
    ensures Step(p, s, line).Ok? ==>
              var r := Step(p, s, line).value;
              var i := s.currFailedTestIndex;
              var j := if s.failedTests[i].totalFails > 0 then i else i + 1;
              var t := s.failedTests[j].test;
              && r.currFailedTestIndex == j
              && |r.failedTests| == |s.failedTests|
              && (forall k :: 0 <= k < |s.failedTests| ==>
                    r.failedTests[k].test == s.failedTests[k].test
                    && r.failedTests[k].totalFails
                       == s.failedTests[k].totalFails - (if k == i || k == j then 1 else 0))
              && r.packages == s.packages && r.readingFailures && r.sawTest
              && |r.tests| == |s.tests|
              && r.tests[t] == s.tests[t].(output := s.tests[t].output + [TrimSpace(line)])
              && forall m :: 0 <= m < |s.tests| && m != t ==> r.tests[m] == s.tests[m]
  {
    StartsFailureNonEmpty(line);
    assert Step(p, s, line) == ReadFailure(s, line);
    CountFailureMoves(s);
    if CountFailure(s).Ok? {
      var counted := CountFailure(s).value;
      assert ReadFailure(s, line) == AppendOutput(counted, TrimSpace(line));
      AppendOutputAppends(counted, TrimSpace(line));
    }
  }

  lemma StartInv()
    ensures Inv(Start)
  {
    assert Results(Start.tests) == [];
  }

  /** In every report, only FAIL tests carry output: failure detail only
      ever reaches tests with a cursor, and only FAIL headers get one. */
  lemma OnlyFailedTestsHaveOutput(useDot: bool, lines: seq<string>)
    requires ParseReport(useDot, lines).Ok?
    ensures forall pkg, t :: pkg in ParseReport(useDot, lines).value.packages && t in pkg.tests && t.result != FAIL
                             ==> t.output == []
  {
    var p := Initialize(useDot);
    StartInv();
    RunKeepsInv(p, Start, lines);
    var s := RunFrom(p, Start, lines).value;
    forall pkg, t | pkg in s.packages && t in pkg.tests && t.result != FAIL ensures t.output == [] {
      var k :| 0 <= k < |s.packages| && s.packages[k] == pkg;
      var i :| 0 <= i < |pkg.tests| && pkg.tests[i] == t;
      assert Quiet(s.packages[k].tests);
    }
  }
}
