/** The projection of a parsed report onto the JUnit XML records of
    junit-formatter.go: one suite per package, one case per test, and the
    counters and times the XML attributes carry. Marshalling the records to
    text is not part of this model. */
module JUnit {
  import opened Wrappers
  import opened Text
  import opened Reports

  /** `JUnitProperty` (junit-formatter.go:48-51). */
  datatype JUnitProperty = JUnitProperty(name: string, value: string)

  /** `JUnitSkipped` (junit-formatter.go:53): an empty marker. */
  datatype JUnitSkipped = JUnitSkipped

  /** `JUnitFailure` (junit-formatter.go:55-59); `kind` is the `type`
      attribute. */
  datatype JUnitFailure = JUnitFailure(message: string, kind: string, contents: string)

  /** `JUnitError` (junit-formatter.go:61-65): declared, never built. */
  datatype JUnitError = JUnitError(message: string, kind: string, contents: string)

  /** `JUnitTestCase` (junit-formatter.go:38-46); the pointer children are
      options, nil being None. */
  datatype JUnitTestCase = JUnitTestCase(
    classname: string,
    name: string,
    assertions: int,
    skipped: Option<JUnitSkipped>,
    failure: Option<JUnitFailure>,
    error: Option<JUnitError>)

  /** `JUnitTestSuite` (junit-formatter.go:24-36). */
  datatype JUnitTestSuite = JUnitTestSuite(
    tests: int,
    failures: int,
    errors: int,
    disabled: int,
    skipped: int,
    time: string,
    name: string,
    package: string,
    properties: seq<JUnitProperty>,
    testCases: seq<JUnitTestCase>)

  /** `JUnitTestSuites` (junit-formatter.go:12-22); `totaltime` is the
      unexported running sum of the package times, in milliseconds. */
  datatype JUnitTestSuites = JUnitTestSuites(
    tests: int,
    failures: int,
    errors: int,
    disabled: int,
    time: string,
    totaltime: int,
    name: string,
    testSuits: seq<JUnitTestSuite>)

  /** `NewJUnitProperty` (junit-formatter.go:67-72). */
  function NewJUnitProperty(name: string, value: string): (p: JUnitProperty)
    ensures p.name == name && p.value == value
  {
    JUnitProperty(name, value)
  }

  /** The class name of a package (junit-formatter.go:94-97); its shape
      is stated by `ClassNameShape`. */
  function ClassName(pkgName: string): string {
    var idx := LastIndex(pkgName, '/');
    if idx > -1 && idx < |pkgName| then pkgName[idx + 1..] else pkgName
  }

  /** The class name is what follows the last `/` of the package name, or
      the whole name when it has none. */
  lemma ClassNameShape(pkgName: string)
    ensures var c := ClassName(pkgName);
            && '/' !in c
            && |c| <= |pkgName| && c == pkgName[|pkgName| - |c|..]
            && ('/' in pkgName ==> pkgName[|pkgName| - |c| - 1] == '/')
            && ('/' !in pkgName ==> c == pkgName)
  {
  }

  /** Three digits, with leading zeros, for a number below 1000. */
  function Pad3(n: nat): (r: string)
    requires n < 1000
    ensures |r| == 3 && AllDigits(r) && DigitsValue(r) == n
  {
    var r := [DigitChar(n / 100), DigitChar(n / 10 % 10), DigitChar(n % 10)];
    assert r[..2][..1] == r[..1] && r[..1][..0] == [];
    assert DigitsValue(r[..1]) == n / 100;
    assert DigitsValue(r[..2]) == 10 * (n / 100) + n / 10 % 10 == n / 10;
    assert DigitsValue(r) == 10 * (n / 10) + n % 10 == n;
    r
  }

  /** Milliseconds written as seconds with exactly three decimals: the
      whole seconds without leading zeros, a dot, then three digits. */
  predicate IsMillisText(s: string, t: nat) {
    && |s| >= 5 && s[|s| - 4] == '.'
    && AllDigits(s[..|s| - 4]) && AllDigits(s[|s| - 3..])
    && DigitsValue(s[..|s| - 4]) == t / 1000 && DigitsValue(s[|s| - 3..]) == t % 1000
    && (s[0] == '0' ==> |s| == 5)
  }

  /** `formatTime` (junit-formatter.go:159-161): `%.3f` of the time over
      1000, in integer arithmetic; a negative time is its magnitude's text
      after a minus sign. Its shape is stated by `FormatTimeShape`. */
  function FormatTime(time: int): string
    decreases if time < 0 then 1 else 0
  {
    if time < 0 then "-" + FormatTime(-time)
    else Decimal(time / 1000) + "." + Pad3(time % 1000)
  }

  /** The time text is the whole seconds without leading zeros, a dot and
      three digits of milliseconds, after a minus sign when negative. */
  lemma FormatTimeShape(time: int)
    ensures time >= 0 ==> IsMillisText(FormatTime(time), time)
    ensures time < 0 ==> var s := FormatTime(time); |s| >= 1 && s[0] == '-' && IsMillisText(s[1..], -time)
  {
    var t := if time < 0 then -time else time;
    var whole := Decimal(t / 1000);
    var s := whole + "." + Pad3(t % 1000);
    assert FormatTime(t) == s;
    assert s[..|s| - 4] == whole && s[|s| - 3..] == Pad3(t % 1000);
    if time < 0 {
      assert FormatTime(time)[1..] == s;
    }
  }

  /** The test case of one test (junit-formatter.go:104-123): a FAIL test
      carries a failure with its output joined by newlines, a SKIP test
      the skipped marker, a PASS test neither. */
  function CaseOf(classname: string, test: Test): JUnitTestCase {
    var testCase := JUnitTestCase(classname, test.name, 0, None, None, None);
    match test.result
    case FAIL => testCase.(failure := Some(JUnitFailure("Failed", "", Join(test.output, "\n"))))
    case SKIP => testCase.(skipped := Some(JUnitSkipped))
    case PASS => testCase
  }

  /** The cases of `tests`, in order. */
  function CasesOf(classname: string, tests: seq<Test>): (cases: seq<JUnitTestCase>)
    ensures |cases| == |tests|
    decreases |tests|
  {
    if tests == [] then []
    else CasesOf(classname, tests[..|tests| - 1]) + [CaseOf(classname, tests[|tests| - 1])]
  }

  lemma CasesStep(classname: string, tests: seq<Test>, j: nat)
    requires j < |tests|
    ensures CasesOf(classname, tests[..j + 1]) == CasesOf(classname, tests[..j]) + [CaseOf(classname, tests[j])]
  {
    assert tests[..j + 1][..j] == tests[..j];
  }

  /** The suite of one package (junit-formatter.go:82-128). */
  function SuiteOf(pkg: Package, goVersion: string): JUnitTestSuite {
    JUnitTestSuite(
      |pkg.tests|, CountResult(pkg.tests, FAIL), 0, 0, CountResult(pkg.tests, SKIP),
      FormatTime(pkg.time), pkg.name, "",
      [NewJUnitProperty("go.version", goVersion)],
      CasesOf(ClassName(pkg.name), pkg.tests))
  }

  /** The suites of `packages`, in order. */
  function SuitesOf(packages: seq<Package>, goVersion: string): (suites: seq<JUnitTestSuite>)
    ensures |suites| == |packages|
    decreases |packages|
  {
    if packages == [] then []
    else SuitesOf(packages[..|packages| - 1], goVersion) + [SuiteOf(packages[|packages| - 1], goVersion)]
  }

  /** The suite at position `k` is the suite of the package at `k`. */
  lemma {:induction false} SuiteAt(packages: seq<Package>, goVersion: string, k: nat)
    requires k < |packages|
    ensures SuitesOf(packages, goVersion)[k] == SuiteOf(packages[k], goVersion)
    decreases |packages|
  {
    if k < |packages| - 1 {
      SuiteAt(packages[..|packages| - 1], goVersion, k);
    }
  }

  /** The number of tests of all `packages`. */
  function TotalTests(packages: seq<Package>): nat
    decreases |packages|
  {
    if packages == [] then 0
    else TotalTests(packages[..|packages| - 1]) + |packages[|packages| - 1].tests|
  }

  /** The number of FAIL tests of all `packages`. */
  function TotalFailures(packages: seq<Package>): nat
    decreases |packages|
  {
    if packages == [] then 0
    else TotalFailures(packages[..|packages| - 1]) + CountResult(packages[|packages| - 1].tests, FAIL)
  }

  /** The sum of the times of all `packages`. */
  function TotalTime(packages: seq<Package>): int
    decreases |packages|
  {
    if packages == [] then 0
    else TotalTime(packages[..|packages| - 1]) + packages[|packages| - 1].time
  }

  /** The root record once `packages` have been converted, before its time
      text is set. */
  function Converted(packages: seq<Package>, goVersion: string): JUnitTestSuites {
    JUnitTestSuites(TotalTests(packages), TotalFailures(packages), 0, 0, "", TotalTime(packages), "",
                    SuitesOf(packages, goVersion))
  }

  /** The records `JUnitReportXML` hands to the marshaller. */
  function ReportSuites(report: Report, goVersion: string): JUnitTestSuites {
    var suites := Converted(report.packages, goVersion);
    suites.(time := FormatTime(suites.totaltime))
  }

  /** The totals over one more package. */
  lemma TotalsStep(packages: seq<Package>, i: nat, goVersion: string)
    requires i < |packages|
    ensures TotalTests(packages[..i + 1]) == TotalTests(packages[..i]) + |packages[i].tests|
    ensures TotalFailures(packages[..i + 1]) == TotalFailures(packages[..i]) + CountResult(packages[i].tests, FAIL)
    ensures TotalTime(packages[..i + 1]) == TotalTime(packages[..i]) + packages[i].time
    ensures SuitesOf(packages[..i + 1], goVersion) == SuitesOf(packages[..i], goVersion) + [SuiteOf(packages[i], goVersion)]
  {
    assert packages[..i + 1][..i] == packages[..i];
  }

  /** `JUnitReportXML` (junit-formatter.go:76-131): the records of the
      whole report, with the root's time formatted last; `goVersion`
      stands for `runtime.Version()`. */
  method JUnitReportXML(report: Report, goVersion: string) returns (suites: JUnitTestSuites)
    ensures suites == ReportSuites(report, goVersion)
  {
    suites := ConvertPackages(report.packages, goVersion);
    suites := suites.(time := FormatTime(suites.totaltime));
    assert suites == ReportSuites(report, goVersion) by {
      var expected := ReportSuites(report, goVersion);
      assert suites.tests == expected.tests && suites.failures == expected.failures;
      assert suites.totaltime == expected.totaltime && suites.testSuits == expected.testSuits;
      assert suites.time == expected.time;
    }
  }

  /** The outer loop of `JUnitReportXML` (junit-formatter.go:79-129),
      accumulating the root's counters and appending one suite per
      package. */
  method ConvertPackages(packages: seq<Package>, goVersion: string) returns (suites: JUnitTestSuites)
    ensures suites.tests == TotalTests(packages) && suites.failures == TotalFailures(packages)
    ensures suites.totaltime == TotalTime(packages) && suites.testSuits == SuitesOf(packages, goVersion)
    ensures suites.errors == 0 && suites.disabled == 0 && suites.time == "" && suites.name == ""
  {
    suites := JUnitTestSuites(0, 0, 0, 0, "", 0, "", []);
    var i := 0;
    while i < |packages|
      invariant 0 <= i <= |packages|
      invariant suites.tests == TotalTests(packages[..i])
      invariant suites.failures == TotalFailures(packages[..i])
      invariant suites.totaltime == TotalTime(packages[..i])
      invariant suites.testSuits == SuitesOf(packages[..i], goVersion)
      invariant suites.errors == 0 && suites.disabled == 0 && suites.time == "" && suites.name == ""
    {
      TotalsStep(packages, i, goVersion);
      suites := AddPackage(suites, packages[i], goVersion);
      i := i + 1;
    }
    assert packages[..i] == packages;
  }

  /** One pass of the outer loop (junit-formatter.go:82-128): the suite of
      `pkg` is built while the root's counters grow. */
  method AddPackage(before: JUnitTestSuites, pkg: Package, goVersion: string) returns (suites: JUnitTestSuites)
    ensures suites.tests == before.tests + |pkg.tests|
    ensures suites.failures == before.failures + CountResult(pkg.tests, FAIL)
    ensures suites.totaltime == before.totaltime + pkg.time
    ensures suites.testSuits == before.testSuits + [SuiteOf(pkg, goVersion)]
    ensures suites.errors == before.errors && suites.disabled == before.disabled
    ensures suites.time == before.time && suites.name == before.name
  {
    suites := before;
    var ts := JUnitTestSuite(|pkg.tests|, 0, 0, 0, 0, FormatTime(pkg.time), pkg.name, "", [], []);
    suites := suites.(tests := suites.tests + ts.tests, totaltime := suites.totaltime + pkg.time);
    var classname := pkg.name;
    var idx := LastIndex(classname, '/');
    if idx > -1 && idx < |pkg.name| {
      classname := pkg.name[idx + 1..];
    }
    assert classname == ClassName(pkg.name);
    ts := ts.(properties := ts.properties + [NewJUnitProperty("go.version", goVersion)]);
    ghost var suiteStart := ts;
    ts, suites := AddCases(ts, suites, classname, pkg.tests);
    assert [] + CasesOf(classname, pkg.tests) == CasesOf(classname, pkg.tests);
    assert ts == SuiteOf(pkg, goVersion);
    suites := suites.(testSuits := suites.testSuits + [ts]);
  }

  /** The inner loop (junit-formatter.go:103-126): one case per test, in
      order, counting the FAIL tests into both the suite and the root and
      the SKIP tests into the suite. */
  method AddCases(suite: JUnitTestSuite, root: JUnitTestSuites, classname: string, tests: seq<Test>)
    returns (ts: JUnitTestSuite, suites: JUnitTestSuites)
    ensures ts == suite.(failures := suite.failures + CountResult(tests, FAIL),
                         skipped := suite.skipped + CountResult(tests, SKIP),
                         testCases := suite.testCases + CasesOf(classname, tests))
    ensures suites == root.(failures := root.failures + CountResult(tests, FAIL))
  {
    ts, suites := suite, root;
    var j := 0;
    while j < |tests|
      invariant 0 <= j <= |tests|
      invariant ts == suite.(failures := suite.failures + CountResult(tests[..j], FAIL),
                             skipped := suite.skipped + CountResult(tests[..j], SKIP),
                             testCases := suite.testCases + CasesOf(classname, tests[..j]))
      invariant suites == root.(failures := root.failures + CountResult(tests[..j], FAIL))
    {
      CountResultStep(tests, j, FAIL);
      CountResultStep(tests, j, SKIP);
      CasesStep(classname, tests, j);
      ConcatAssoc(suite.testCases, CasesOf(classname, tests[..j]), [CaseOf(classname, tests[j])]);
      ts, suites := AddCase(ts, suites, classname, tests[j]);
      j := j + 1;
    }
    assert tests[..j] == tests;
  }

  /** The body of the inner loop (junit-formatter.go:104-125) for one
      test. */
  method AddCase(suite: JUnitTestSuite, root: JUnitTestSuites, classname: string, test: Test)
    returns (ts: JUnitTestSuite, suites: JUnitTestSuites)
    ensures ts == suite.(failures := suite.failures + (if test.result == FAIL then 1 else 0),
                         skipped := suite.skipped + (if test.result == SKIP then 1 else 0),
                         testCases := suite.testCases + [CaseOf(classname, test)])
    ensures suites == root.(failures := root.failures + (if test.result == FAIL then 1 else 0))
  {
    ts, suites := suite, root;
    var testCase := JUnitTestCase(classname, test.name, 0, None, None, None);
    match test.result {
      case FAIL =>
        ts := ts.(failures := ts.failures + 1);
        suites := suites.(failures := suites.failures + 1);
        testCase := testCase.(failure := Some(JUnitFailure("Failed", "", Join(test.output, "\n"))));
      case SKIP =>
        ts := ts.(skipped := ts.skipped + 1);
        testCase := testCase.(skipped := Some(JUnitSkipped));
      case PASS =>
    }
    ts := ts.(testCases := ts.testCases + [testCase]);
  }

  /** `countFailures` (junit-formatter.go:150-157): the FAIL tests among
      `tests`. */
  method CountFailures(tests: seq<Test>) returns (result: nat)
    ensures result == CountResult(tests, FAIL)
  {
    result := 0;
    var i := 0;
    while i < |tests|
      invariant 0 <= i <= |tests|
      invariant result == CountResult(tests[..i], FAIL)
    {
      CountResultStep(tests, i, FAIL);
      if tests[i].result == FAIL {
        result := result + 1;
      }
      i := i + 1;
    }
    assert tests[..i] == tests;
  }
}
