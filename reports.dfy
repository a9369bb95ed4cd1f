/** The report the parser builds: packages of tests, each test with its
    outcome and the failure detail attached to it (parser.go:11-33). */
module Reports {

  /** A test's outcome, decided from the markers on its header line. */
  datatype Result = PASS | FAIL | SKIP

  /** One narration line of a scenario. `output` holds the trimmed failure
      detail lines attributed to it. */
  datatype Test = Test(name: string, result: Result, output: seq<string>)

  /** A test function's summary line and the tests seen since the previous one.
      `time` is in milliseconds. */
  datatype Package = Package(name: string, time: int, tests: seq<Test>)

  datatype Report = Report(packages: seq<Package>)

  /** The outcomes of a list of tests, in order. */
  function Results(tests: seq<Test>): (rs: seq<Result>)
    ensures |rs| == |tests|
    ensures forall i :: 0 <= i < |tests| ==> rs[i] == tests[i].result
  {
    seq(|tests|, i requires 0 <= i < |tests| => tests[i].result)
  }

  /** How many of `tests` have outcome `r`. */
  function CountResult(tests: seq<Test>, r: Result): nat {
    multiset(Results(tests))[r]
  }

  /** Counting over one more test adds one exactly when it has the outcome. */
  lemma CountResultSnoc(tests: seq<Test>, t: Test, r: Result)
    ensures CountResult(tests + [t], r) == CountResult(tests, r) + (if t.result == r then 1 else 0)
  {
    assert Results(tests + [t]) == Results(tests) + [t.result];
  }

  /** Counting over a prefix one test longer. */
  lemma CountResultStep(tests: seq<Test>, j: nat, r: Result)
    requires j < |tests|
    ensures CountResult(tests[..j + 1], r) == CountResult(tests[..j], r) + (if tests[j].result == r then 1 else 0)
  {
    assert tests[..j + 1] == tests[..j] + [tests[j]];
    CountResultSnoc(tests[..j], tests[j], r);
  }
}
