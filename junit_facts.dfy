/** What the JUnit records promise about the report they come from:
    counts, order, class names, times that read back, and which XML
    attributes `omitempty` leaves out (junit-formatter.go:12-131, 159-161). */
module JUnitFacts {
  import opened Wrappers
  import opened Text
  import opened Reports
  import opened Parser
  import opened ParseTimes
  import opened ParserOutline
  import opened JUnit

  /** The cases that carry a failure record. */
  function FailedCases(cases: seq<JUnitTestCase>): nat
    decreases |cases|
  {
    if cases == [] then 0
    else FailedCases(cases[..|cases| - 1]) + (if cases[|cases| - 1].failure.Some? then 1 else 0)
  }

  /** The cases that carry the skipped marker. */
  function SkippedCases(cases: seq<JUnitTestCase>): nat
    decreases |cases|
  {
    if cases == [] then 0
    else SkippedCases(cases[..|cases| - 1]) + (if cases[|cases| - 1].skipped.Some? then 1 else 0)
  }

  /** The sum of the suites' `tests` counters. */
  function SuiteTestsSum(suites: seq<JUnitTestSuite>): int
    decreases |suites|
  {
    if suites == [] then 0 else SuiteTestsSum(suites[..|suites| - 1]) + suites[|suites| - 1].tests
  }

  /** The sum of the suites' `failures` counters. */
  function SuiteFailuresSum(suites: seq<JUnitTestSuite>): int
    decreases |suites|
  {
    if suites == [] then 0 else SuiteFailuresSum(suites[..|suites| - 1]) + suites[|suites| - 1].failures
  }

  /** A test's case: named after the test, in the package's class, with a
      failure record exactly for FAIL (message `Failed`, empty type, the
      output lines joined by newlines), the skipped marker exactly for
      SKIP, and never an error or an assertion count. */
  lemma CaseOfTest(classname: string, test: Test)
    ensures var c := CaseOf(classname, test);
            && c.classname == classname && c.name == test.name
            && (c.failure.Some? <==> test.result == FAIL)
            && (c.skipped.Some? <==> test.result == SKIP)
            && c.error.None? && c.assertions == 0
            && (c.failure.Some? ==> c.failure.value == JUnitFailure("Failed", "", Join(test.output, "\n")))
  {
  }

  /** One case per test, in the tests' order. */
  lemma {:induction false} CasesFollowTests(classname: string, tests: seq<Test>)
    ensures forall i :: 0 <= i < |tests| ==> CasesOf(classname, tests)[i] == CaseOf(classname, tests[i])
    decreases |tests|
  {
    if tests != [] {
      CasesFollowTests(classname, tests[..|tests| - 1]);
    }
  }

  /** Counting the cases' failure records and skipped markers counts the
      FAIL and the SKIP tests. */
  lemma {:induction false} CasesCount(classname: string, tests: seq<Test>)
    ensures FailedCases(CasesOf(classname, tests)) == CountResult(tests, FAIL)
    ensures SkippedCases(CasesOf(classname, tests)) == CountResult(tests, SKIP)
    decreases |tests|
  {
    if tests != [] {
      var init := tests[..|tests| - 1];
      var last := tests[|tests| - 1];
      var cases := CasesOf(classname, tests);
      CasesCount(classname, init);
      assert cases[..|cases| - 1] == CasesOf(classname, init);
      assert tests == init + [last];
      CountResultSnoc(init, last, FAIL);
      CountResultSnoc(init, last, SKIP);
      CaseOfTest(classname, last);
    }
  }

  /** A suite's counters agree with its cases: `tests` is their number,
      `failures` the number with a failure record and `skipped` the number
      with the skipped marker; its one property is `go.version`, and every
      case carries the package's class name. */
  lemma SuiteCounters(pkg: Package, goVersion: string)
    ensures var s := SuiteOf(pkg, goVersion);
            && s.tests == |s.testCases| == |pkg.tests|
            && s.failures == FailedCases(s.testCases)
            && s.skipped == SkippedCases(s.testCases)
            && s.errors == 0 && s.disabled == 0 && s.package == ""
            && s.properties == [JUnitProperty("go.version", goVersion)]
            && s.name == pkg.name && s.time == FormatTime(pkg.time)
            && forall i :: 0 <= i < |s.testCases| ==> s.testCases[i].classname == ClassName(pkg.name)
  {
    var c := ClassName(pkg.name);
    CasesCount(c, pkg.tests);
    CasesFollowTests(c, pkg.tests);
  }

  /** The root's counters are the sums of the suites' counters. */
  lemma {:induction false} RootSums(packages: seq<Package>, goVersion: string)
    ensures SuiteTestsSum(SuitesOf(packages, goVersion)) == TotalTests(packages)
    ensures SuiteFailuresSum(SuitesOf(packages, goVersion)) == TotalFailures(packages)
    decreases |packages|
  {
    if packages != [] {
      var init := packages[..|packages| - 1];
      RootSums(init, goVersion);
      var suites := SuitesOf(packages, goVersion);
      assert suites[..|suites| - 1] == SuitesOf(init, goVersion);
    }
  }

  /** The records of a whole report: the root's time is the formatted sum
      of the package times, and the root never gets a name or error and
      disabled counts. */
  lemma ReportRoot(report: Report, goVersion: string)
    ensures var r := ReportSuites(report, goVersion);
            && |r.testSuits| == |report.packages|
            && (forall k :: 0 <= k < |report.packages| ==> r.testSuits[k] == SuiteOf(report.packages[k], goVersion))
            && r.tests == SuiteTestsSum(r.testSuits) && r.failures == SuiteFailuresSum(r.testSuits)
            && r.time == FormatTime(TotalTime(report.packages))
            && r.errors == 0 && r.disabled == 0 && r.name == ""
  {
    RootSums(report.packages, goVersion);
    forall k | 0 <= k < |report.packages|
      ensures SuitesOf(report.packages, goVersion)[k] == SuiteOf(report.packages[k], goVersion)
    {
      SuiteAt(report.packages, goVersion, k);
    }
  }

  /** The time text reads back, through `parseTime`, as the time it was
      made from: the two formats are each other's inverse. */
  lemma FormatTimeRoundTrip(time: int)
    requires MinInt < time <= MaxInt
    ensures ParseTime(FormatTime(time)) == time
  {
    var t := if time < 0 then -time else time;
    var whole := Decimal(t / 1000);
    var frac := Pad3(t % 1000);
    assert DigitsValue(whole) * 1000 + DigitsValue(frac) == t;
    if time >= 0 {
      assert FormatTime(time) == whole + "." + frac;
      ParseTimeMilliseconds(whole, frac);
    } else {
      NegativeTimeRoundTrip(time, whole, frac);
    }
  }

  /** The round trip of a negative time: the minus sign survives the
      dot's deletion and `Atoi` reads it back. */
  lemma NegativeTimeRoundTrip(time: int, whole: string, frac: string)
    requires MinInt < time < 0
    requires whole == Decimal(-time / 1000) && frac == Pad3(-time % 1000)
    requires DigitsValue(whole) * 1000 + DigitsValue(frac) == -time
    ensures ParseTime(FormatTime(time)) == time
  {
    var text := FormatTime(time);
    assert FormatTime(-time) == whole + "." + frac;
    assert text == "-" + (whole + "." + frac);
    RemoveAllConcat("-", whole + "." + frac, '.');
    RemoveAllAbsent("-", '.');
    DropDot(whole, frac);
    var digits := RemoveAll(text, '.');
    assert digits == "-" + (whole + frac);
    assert digits[1..] == whole + frac;
    DigitsValueConcat(whole, frac);
    assert Pow10(3) == 1000;
    assert Atoi(digits) == Some(-(DigitsValue(whole + frac) as int));
  }

  /** The sample times: 1500 milliseconds is `1.500` and 10 is `0.010`. */
  lemma FormatTimeSamples()
    ensures FormatTime(1500) == "1.500"
    ensures FormatTime(10) == "0.010"
  {
    assert Decimal(1) == "1";
    assert Decimal(0) == "0";
    assert Pad3(500) == "500";
    assert Pad3(10) == "010";
  }

  /** The attribute names the records' `xml` tags declare. */
  datatype AttrName = Tests | Failures | Errors | Disabled | Skipped | Time | Name | PackageAttr | Classname | Assertions

  /** The name as the tag spells it. */
  function Tag(a: AttrName): string {
    match a
    case Tests => "tests"
    case Failures => "failures"
    case Errors => "errors"
    case Disabled => "disabled"
    case Skipped => "skipped"
    case Time => "time"
    case Name => "name"
    case PackageAttr => "package"
    case Classname => "classname"
    case Assertions => "assertions"
  }

  /** An XML attribute as the marshaller writes it. */
  datatype Attribute = Attribute(name: AttrName, value: string)

  /** A signed integer in decimal, as `encoding/xml` writes an `int`. */
  function IntText(n: int): string {
    if n < 0 then "-" + Decimal(-n) else Decimal(n)
  }

  /** `omitempty` on an integer attribute: absent when zero. */
  function IntAttribute(name: AttrName, n: int, omitEmpty: bool): seq<Attribute> {
    if omitEmpty && n == 0 then [] else [Attribute(name, IntText(n))]
  }

  /** `omitempty` on a string attribute: absent when empty. */
  function TextAttribute(name: AttrName, s: string, omitEmpty: bool): seq<Attribute> {
    if omitEmpty && s == "" then [] else [Attribute(name, s)]
  }

  /** The attributes of `<testsuites>` (junit-formatter.go:14-20). */
  function RootAttributes(r: JUnitTestSuites): seq<Attribute> {
    IntAttribute(Tests, r.tests, false) + IntAttribute(Failures, r.failures, true)
    + IntAttribute(Errors, r.errors, true) + IntAttribute(Disabled, r.disabled, true)
    + TextAttribute(Time, r.time, false) + TextAttribute(Name, r.name, true)
  }

  /** The attributes of `<testsuite>` (junit-formatter.go:26-33). */
  function SuiteAttributes(s: JUnitTestSuite): seq<Attribute> {
    IntAttribute(Tests, s.tests, false) + IntAttribute(Failures, s.failures, true)
    + IntAttribute(Errors, s.errors, true) + IntAttribute(Disabled, s.disabled, true)
    + IntAttribute(Skipped, s.skipped, true) + TextAttribute(Time, s.time, true)
    + TextAttribute(Name, s.name, true) + TextAttribute(PackageAttr, s.package, true)
  }

  /** The attributes of `<testcase>` (junit-formatter.go:40-42). */
  function CaseAttributes(c: JUnitTestCase): seq<Attribute> {
    TextAttribute(Classname, c.classname, false) + TextAttribute(Name, c.name, false)
    + IntAttribute(Assertions, c.assertions, true)
  }

  /** Empty attribute lists drop out of a concatenation. */
  lemma DropEmpty<T>(a: seq<T>, b: seq<T>, c: seq<T>, d: seq<T>, e: seq<T>, f: seq<T>, g: seq<T>, h: seq<T>)
    requires c == [] && d == [] && h == []
    ensures a + b + c + d + e + f + g + h == a + b + e + f + g
  {
    assert a + b + c + d == a + b;
  }

  /** The root carries `tests` and `time` always, `failures` exactly when
      some test failed, and never `errors`, `disabled` or `name`. */
  lemma RootAttributesPresent(report: Report, goVersion: string)
    ensures RootAttributes(ReportSuites(report, goVersion))
            == [Attribute(Tests, IntText(TotalTests(report.packages)))]
               + IntAttribute(Failures, TotalFailures(report.packages), true)
               + [Attribute(Time, FormatTime(TotalTime(report.packages)))]
  {
    var r := ReportSuites(report, goVersion);
    var tests, failures := IntAttribute(Tests, r.tests, false), IntAttribute(Failures, r.failures, true);
    var errors, disabled := IntAttribute(Errors, r.errors, true), IntAttribute(Disabled, r.disabled, true);
    var time, name := TextAttribute(Time, r.time, false), TextAttribute(Name, r.name, true);
    assert errors == [] && disabled == [] && name == [];
    DropEmpty(tests, failures, errors, disabled, time, [], [], name);
  }

  /** A suite carries `tests` and `time` always, `failures` exactly when
      one of its tests failed, `skipped` exactly when one was skipped,
      `name` exactly when the package has one, and never `errors`,
      `disabled` or `package`. */
  lemma SuiteAttributesPresent(pkg: Package, goVersion: string)
    ensures SuiteAttributes(SuiteOf(pkg, goVersion))
            == [Attribute(Tests, IntText(|pkg.tests|))]
               + IntAttribute(Failures, CountResult(pkg.tests, FAIL), true)
               + IntAttribute(Skipped, CountResult(pkg.tests, SKIP), true)
               + [Attribute(Time, FormatTime(pkg.time))]
               + TextAttribute(Name, pkg.name, true)
  {
    var s := SuiteOf(pkg, goVersion);
    var tests, failures := IntAttribute(Tests, s.tests, false), IntAttribute(Failures, s.failures, true);
    var errors, disabled := IntAttribute(Errors, s.errors, true), IntAttribute(Disabled, s.disabled, true);
    var skipped, time := IntAttribute(Skipped, s.skipped, true), TextAttribute(Time, s.time, true);
    var name, package := TextAttribute(Name, s.name, true), TextAttribute(PackageAttr, s.package, true);
    FormatTimeShape(pkg.time);
    assert s.time != "";
    assert tests == [Attribute(Tests, IntText(|pkg.tests|))] && time == [Attribute(Time, FormatTime(pkg.time))];
    assert errors == [] && disabled == [] && package == [];
    DropEmpty(tests, failures, errors, disabled, skipped, time, name, package);
  }

  /** A case never carries `assertions`. */
  lemma CaseAttributesPresent(classname: string, test: Test)
    ensures CaseAttributes(CaseOf(classname, test))
            == [Attribute(Classname, classname), Attribute(Name, test.name)]
  {
  }

  /** For parsed input: one suite per summary line. */
  lemma ParsedSuites(useDot: bool, lines: seq<string>, goVersion: string)
    requires ParseReport(useDot, lines).Ok?
    ensures |ReportSuites(ParseReport(useDot, lines).value, goVersion).testSuits| == SummaryCount(lines)
  {
    ReportFollowsOutline(useDot, lines);
    ReportRoot(ParseReport(useDot, lines).value, goVersion);
  }
}
