/** The shape of the report `Parse` builds, stated without the failure
    machinery: which packages there are, in which order, and which test
    headers each of them holds (parser.go:96-132, 158). */
module ParserOutline {
  import opened Wrappers
  import opened Text
  import opened Reports
  import opened Markers
  import opened Parser

  /** What a header line says about its test: its name and outcome. */
  datatype Heading = Heading(name: string, result: Result)

  /** A sealed package without its tests' failure detail. */
  datatype Sealed = Sealed(name: string, time: int, headings: seq<Heading>)

  /** The packages sealed so far and the headings still pending. */
  datatype Outline = Outline(sealed: seq<Sealed>, pending: seq<Heading>)

  function HeadingOf(t: Test): Heading {
    Heading(t.name, t.result)
  }

  function Headings(tests: seq<Test>): (hs: seq<Heading>)
    ensures |hs| == |tests|
    ensures forall i :: 0 <= i < |tests| ==> hs[i] == HeadingOf(tests[i])
  {
    seq(|tests|, i requires 0 <= i < |tests| => HeadingOf(tests[i]))
  }

  function SealedOf(pkg: Package): Sealed {
    Sealed(pkg.name, pkg.time, Headings(pkg.tests))
  }

  function SealedAll(packages: seq<Package>): (ss: seq<Sealed>)
    ensures |ss| == |packages|
    ensures forall k :: 0 <= k < |packages| ==> ss[k] == SealedOf(packages[k])
  {
    seq(|packages|, k requires 0 <= k < |packages| => SealedOf(packages[k]))
  }

  /** The outline of a builder state. */
  function Sketch(s: State): Outline {
    Outline(SealedAll(s.packages), Headings(s.tests))
  }

  /** A line that seals a package: it matches the summary pattern and is
      not taken as a test header first. */
  predicate IsSummaryLine(line: string) {
    !IsTestHeader(line) && MatchPackage(line).Some?
  }

  /** The heading a header line announces. */
  function HeadingOfLine(p: Profile, line: string): Heading {
    Heading(TestName(p, line), HeaderResult(p, line))
  }

  /** The outline after one more line: a header adds a heading, a summary
      seals the pending headings under its name and time, anything else
      leaves the outline alone. */
  function NextOutline(p: Profile, o: Outline, line: string): Outline {
    if IsTestHeader(line) then o.(pending := o.pending + [HeadingOfLine(p, line)])
    else match MatchPackage(line)
      case Some(sm) => Outline(o.sealed + [Sealed(sm.name, ParseTime(sm.seconds), o.pending)], [])
      case None => o
  }

  /** The outline of a whole input. */
  function OutlineOf(p: Profile, lines: seq<string>): Outline
    decreases |lines|
  {
    if lines == [] then Outline([], [])
    else NextOutline(p, OutlineOf(p, lines[..|lines| - 1]), lines[|lines| - 1])
  }

  /** The headings of the header lines among `lines`, in order. */
  function HeadingsIn(p: Profile, lines: seq<string>): (hs: seq<Heading>)
    ensures |hs| <= |lines|
    decreases |lines|
  {
    if lines == [] then []
    else
      var last := lines[|lines| - 1];
      HeadingsIn(p, lines[..|lines| - 1]) + (if IsTestHeader(last) then [HeadingOfLine(p, last)] else [])
  }

  predicate NoSummary(lines: seq<string>) {
    forall i :: 0 <= i < |lines| ==> !IsSummaryLine(lines[i])
  }

  lemma HeadingsSnoc(tests: seq<Test>, t: Test)
    ensures Headings(tests + [t]) == Headings(tests) + [HeadingOf(t)]
  {
  }

  /** Failure detail only touches outputs, which the outline ignores. */
  lemma ReadFailureKeepsSketch(s: State, line: string)
    requires Bounded(s) && ReadFailure(s, line).Ok?
    ensures Sketch(ReadFailure(s, line).value) == Sketch(s)
  {
    var next := if StartsFailure(line) then CountFailure(s).value else s;
    assert next.tests == s.tests && next.packages == s.packages;
    if |line| > 0 {
      var r := AppendOutput(next, TrimSpace(line)).value;
      assert Headings(r.tests) == Headings(s.tests);
    }
  }

  lemma HeaderFollowsOutline(p: Profile, s: State, line: string)
    requires Bounded(s) && IsTestHeader(line) && Step(p, s, line).Ok?
    ensures Sketch(Step(p, s, line).value) == NextOutline(p, Sketch(s), line)
  {
    HeadingsSnoc(s.tests, Test(TestName(p, line), HeaderResult(p, line), []));
  }

  /** Sealing a package seals the pending headings under the summary's
      name and time and leaves no heading pending. */
  lemma SealKeepsOutline(s: State, sm: Summary)
    ensures Sketch(SealPackage(s, sm))
            == Outline(Sketch(s).sealed + [Sealed(sm.name, ParseTime(sm.seconds), Headings(s.tests))], [])
  {
    var r := SealPackage(s, sm);
    assert SealedAll(r.packages) == SealedAll(s.packages) + [SealedOf(r.packages[|s.packages|])];
  }

  lemma SummaryFollowsOutline(p: Profile, s: State, line: string)
    requires Bounded(s) && IsSummaryLine(line)
    ensures Step(p, s, line).Ok?
    ensures Sketch(Step(p, s, line).value) == NextOutline(p, Sketch(s), line)
  {
    var sm := MatchPackage(line).value;
    assert Step(p, s, line) == Ok(SealPackage(s, sm));
    SealKeepsOutline(s, sm);
  }

  /** Each line moves the builder's outline exactly as `NextOutline` moves
      the outline. */
  lemma StepFollowsOutline(p: Profile, s: State, line: string)
    requires Bounded(s) && Step(p, s, line).Ok?
    ensures Sketch(Step(p, s, line).value) == NextOutline(p, Sketch(s), line)
  {
    if IsTestHeader(line) {
      HeaderFollowsOutline(p, s, line);
    } else if MatchPackage(line).Some? {
      SummaryFollowsOutline(p, s, line);
    } else if s.sawTest && !IsAssertionsLine(line) && !IsFailuresLine(line) && s.readingFailures {
      ReadFailureKeepsSketch(s, line);
    }
  }

  /** The packages and pending tests of any run that does not panic are
      those of the outline of its input: failure detail never moves a
      test or a package. */
  lemma {:induction false} RunFollowsOutline(p: Profile, lines: seq<string>)
    requires RunFrom(p, Start, lines).Ok?
    ensures Sketch(RunFrom(p, Start, lines).value) == OutlineOf(p, lines)
    decreases |lines|
  {
    if lines != [] {
      var init := lines[..|lines| - 1];
      RunFromSnoc(p, Start, init, lines[|lines| - 1]);
      assert init + [lines[|lines| - 1]] == lines;
      RunFollowsOutline(p, init);
      StepFollowsOutline(p, RunFrom(p, Start, init).value, lines[|lines| - 1]);
    }
  }

  lemma OutlineSnoc(p: Profile, lines: seq<string>, line: string)
    ensures OutlineOf(p, lines + [line]) == NextOutline(p, OutlineOf(p, lines), line)
    ensures HeadingsIn(p, lines + [line])
            == HeadingsIn(p, lines) + (if IsTestHeader(line) then [HeadingOfLine(p, line)] else [])
  {
    assert (lines + [line])[..|lines|] == lines;
  }

  lemma NextOutlineWithoutSummary(p: Profile, o: Outline, line: string)
    requires !IsSummaryLine(line)
    ensures NextOutline(p, o, line).sealed == o.sealed
    ensures NextOutline(p, o, line).pending
            == o.pending + (if IsTestHeader(line) then [HeadingOfLine(p, line)] else [])
  {
  }

  /** Lines without a summary add their headings to the pending ones and
      seal nothing: tests after the last summary line never reach a package. */
  lemma {:induction false} NoSummaryOnlyPends(p: Profile, lines: seq<string>, more: seq<string>)
    requires NoSummary(more)
    ensures OutlineOf(p, lines + more).sealed == OutlineOf(p, lines).sealed
    ensures OutlineOf(p, lines + more).pending == OutlineOf(p, lines).pending + HeadingsIn(p, more)
    decreases |more|
  {
    if more == [] {
      assert lines + more == lines;
    } else {
      var init := more[..|more| - 1];
      var last := more[|more| - 1];
      assert (lines + init) + [last] == lines + more;
      assert init + [last] == more;
      assert !IsSummaryLine(last);
      NoSummaryOnlyPends(p, lines, init);
      OutlineSnoc(p, lines + init, last);
      OutlineSnoc(p, init, last);
      NextOutlineWithoutSummary(p, OutlineOf(p, lines + init), last);
      var added := if IsTestHeader(last) then [HeadingOfLine(p, last)] else [];
      calc {
        OutlineOf(p, lines + more).pending;
        OutlineOf(p, lines + init).pending + added;
        (OutlineOf(p, lines).pending + HeadingsIn(p, init)) + added;
        { ConcatAssoc(OutlineOf(p, lines).pending, HeadingsIn(p, init), added); }
        OutlineOf(p, lines).pending + (HeadingsIn(p, init) + added);
        OutlineOf(p, lines).pending + HeadingsIn(p, more);
      }
    }
  }

  /** A summary line that follows a stretch without summaries seals, as one
      new package after the earlier ones, the pending headings followed by
      the stretch's headers, under the summary's name and time. */
  lemma SummarySealsSegment(p: Profile, lines: seq<string>, segment: seq<string>, line: string)
    requires NoSummary(segment) && IsSummaryLine(line)
    ensures var o := OutlineOf(p, lines);
            var sm := MatchPackage(line).value;
            OutlineOf(p, lines + segment + [line])
            == Outline(o.sealed + [Sealed(sm.name, ParseTime(sm.seconds), o.pending + HeadingsIn(p, segment))], [])
  {
    NoSummaryOnlyPends(p, lines, segment);
    assert (lines + segment + [line])[..|lines + segment + [line]| - 1] == lines + segment;
  }

  /** Whatever precedes a summary line, the package it seals holds exactly
      the headers since the previous summary line (or the start). */
  lemma PackageHoldsHeadersSincePreviousSummary(p: Profile, lines: seq<string>, segment: seq<string>, line: string)
    requires lines == [] || IsSummaryLine(lines[|lines| - 1])
    requires NoSummary(segment) && IsSummaryLine(line)
    ensures var sealed := OutlineOf(p, lines + segment + [line]).sealed;
            |sealed| == |OutlineOf(p, lines).sealed| + 1
            && sealed[|sealed| - 1].headings == HeadingsIn(p, segment)
  {
    SummarySealsSegment(p, lines, segment, line);
    assert OutlineOf(p, lines).pending == [];
  }

  /** The number of summary lines among `lines`. */
  function SummaryCount(lines: seq<string>): nat
    decreases |lines|
  {
    if lines == [] then 0
    else SummaryCount(lines[..|lines| - 1]) + (if IsSummaryLine(lines[|lines| - 1]) then 1 else 0)
  }

  /** One package per summary line. */
  lemma {:induction false} OneSealedPerSummary(p: Profile, lines: seq<string>)
    ensures |OutlineOf(p, lines).sealed| == SummaryCount(lines)
    decreases |lines|
  {
    if lines != [] {
      OneSealedPerSummary(p, lines[..|lines| - 1]);
    }
  }

  /** The report of an input that does not panic holds one package per
      summary line, each with the headings the outline gives it. */
  lemma ReportFollowsOutline(useDot: bool, lines: seq<string>)
    requires ParseReport(useDot, lines).Ok?
    ensures var packages := ParseReport(useDot, lines).value.packages;
            SealedAll(packages) == OutlineOf(Initialize(useDot), lines).sealed
            && |packages| == SummaryCount(lines)
  {
    RunFollowsOutline(Initialize(useDot), lines);
    OneSealedPerSummary(Initialize(useDot), lines);
  }
}
