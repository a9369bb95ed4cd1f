# goconvey-junit-report, modelled in Dafny

goconvey-junit-report reads the console output of GoConvey tests and writes
a JUnit XML report. This project models its two working parts and proves
properties of them.

- **The report builder** (`parser.go`) classifies every input line by
  explicit predicates that stand for the source's regular expressions:
  - a test header (an indented `Given`/`When`/`Then`/`And`, in any case);
  - a package summary (`--- PASS|FAIL: name (d.d seconds)`);
  - an `N assertion(s) thus far` line;
  - a `Failures:` line;
  - failure detail.

  A state machine collects the tests into packages. It reattaches each
  block of failure detail to the failed test it belongs to. It does this by
  counting the failure markers on each FAIL header and counting them down
  on the `*` lines.
  - `Parse` is a method with a read loop. It updates the builder's
    variables in place and is proved equal to a functional specification,
    `RunFrom`.
  - `parser_blocks.dfy` proves where a Failures block's output goes. A FAIL
    header with N markers receives the next N `*` entries with their detail
    lines, in order. The entries after those go to the next FAIL test.
  - The source's two run-time panics are modelled as an explicit `Err`:
    slicing a FAIL header that has no space, and indexing the failed tests
    out of range.
  - The marker profile (glyphs or dots) is a value passed in. The source
    keeps it in package variables instead.
- **The JUnit projection** (`junit-formatter.go`) turns a report into the
  JUnit records:
  - one suite per package and one case per test;
  - the failure, skipped and test counters;
  - the class name;
  - the `go.version` property;
  - times rendered as seconds with three decimals.

  `JUnitReportXML`, its loops and `countFailures` are methods. Each is
  proved equal to a specification function, and the properties are proved
  about those functions. The attributes that `omitempty` keeps or drops
  are modelled as a function of the records.

The files:
- `text.dfy`: the `strings`/`strconv` helpers.
- `reports.dfy`: the report types.
- `markers.dfy`: the profiles and line classifiers.
- `patterns.dfy`: the classifiers against the patterns they stand for.
- `parser.dfy`: the state machine and `Parse`.
- `parser_outline.dfy`: which tests end up in which package.
- `parser_steps.dfy`: what each kind of line does.
- `parser_blocks.dfy`: which failed test each entry of a Failures block goes to.
- `parse_time.dfy`: `parseTime`.
- `junit.dfy`: the records and `JUnitReportXML`.
- `junit_facts.dfy`: properties of the records, and the `formatTime`/`parseTime` round trip.

## Model

| member | source | states |
|---|---|---|
| Text.TrimSpace | parser.go:98 | the result is no longer than the input and has no Unicode white space at either end |
| Text.TrimLeft | parser.go:98 | the result is a suffix of the input, everything cut from the front satisfies the class, and the result does not start with a character of the class |
| Text.TrimRight | parser.go:98 | the result is a prefix of the input, everything cut from the back satisfies the class, and the result does not end with a character of the class |
| Text.TrimSpaceRemovesOnlySpace | parser.go:98 | the result is a contiguous part of the input and everything cut away on both sides is white space |
| Text.LeadingRun | parser.go:62 | the longest prefix whose characters all satisfy the class, the next character failing it |
| Text.TrailingRun | parser.go:63 | the longest suffix whose characters all satisfy the class, the character before it failing it |
| Text.LastIndex | parser.go:117 | -1 exactly when the character is absent, otherwise a position holding it with none after it |
| Text.Count | parser.go:118 | the number of occurrences of the character (its multiset multiplicity) |
| Text.RemoveAll | parser.go:162 | no occurrence of the character is left and every other character keeps its multiplicity |
| Text.Join | junit-formatter.go:118 | `strings.Join`: its facts are stated by `JoinSnoc` and `JoinCons` |
| Text.JoinSnoc | junit-formatter.go:118 | one more part gives the earlier parts joined, the separator and that part; a lone part is itself |
| Text.JoinCons | junit-formatter.go:118 | read from the front, the join is the first part, the separator and the rest joined |
| Text.Decimal | junit-formatter.go:160 | decimal digits denoting the number, without leading zeros |
| Text.Atoi | parser.go:162-166 | results stay in the 64-bit range; only an optional sign followed by digits is accepted; a digit string and a minus-prefixed digit string in range read as their value |
| Reports.CountResultSnoc | junit-formatter.go:110-123 | counting over one more test adds one exactly when it has the outcome |
| Markers.Initialize | parser.go:55-61 | both profiles are well formed: markers are not white space, success and skip differ, every marker is special; the special set is the four markers |
| Markers.IsTestHeader | parser.go:62 | the header pattern as a predicate; `Patterns.HeaderPattern` proves it holds exactly when white space opens the line and a keyword follows |
| Markers.EndsWithSuccess | parser.go:63 | the success pattern as a predicate; `Patterns.SuccessPattern` proves it holds exactly when a white-space character is followed only by success markers to the end |
| Markers.EndsWithSkip | parser.go:64 | the skip pattern: a white-space character and then the skip marker end the line |
| Markers.IsAssertionsLine | parser.go:66 | the assertions pattern: the line is digits followed by ` assertion thus far` or ` assertions thus far` |
| Markers.IsFailuresLine | parser.go:137 | the line starts with `Failures:` |
| Markers.StartsFailure | parser.go:141 | the trimmed line starts with `*` |
| Markers.HeaderResult | parser.go:63-64 | SKIP exactly when the skip pattern matches; PASS exactly when the success pattern matches and the skip pattern does not; FAIL exactly when neither does |
| Markers.TestName | parser.go:98 | the name is empty or has no white space at either end |
| Markers.FailureMarkers | parser.go:116-118 | absent exactly when the header has no ASCII space; otherwise the number of failure markers from the last space on |
| Markers.SplitCaptures | parser.go:65 | a match yields a non-empty name without newline and a `digits.digits` seconds text that, joined by ` (`, rebuild the matched text |
| Markers.MatchPackage | parser.go:65 | a matched line has the status prefix and the ` seconds)` suffix, and well-formed captures |
| Markers.MatchedLineShape | parser.go:65 | a matched line is exactly the status prefix, the name, ` (`, the seconds and ` seconds)` |
| Patterns.HeaderPattern | parser.go:62 | the header classifier holds exactly when a non-empty run of white space opens the line and a keyword follows it |
| Patterns.SuccessPattern | parser.go:63 | the success classifier holds exactly when some white-space character is followed only by success markers up to the end |
| Patterns.PackagePattern | parser.go:65 | every line of the form `--- PASS/FAIL: name (secs seconds)` matches, capturing exactly that name and those seconds |
| Patterns.SummaryLineFacts | parser.go:65 | a line built from the pattern's parts has the summary frame, and its middle is the name, ` (` and the seconds |
| Patterns.CapturesOf | parser.go:65 | the captures of a name and seconds joined by ` (` are that name and those seconds |
| Patterns.SecondsChars | parser.go:65 | every character of a seconds text is a digit or the dot |
| Patterns.NameOfHeader | parser.go:98 | the name of a header written as indent, name, gap and markers is the name itself |
| Patterns.HeaderStartsWithSpace | parser.go:62 | a header line starts with white space |
| Patterns.SummaryStartsWithDash | parser.go:65 | a summary line starts with `-` |
| Patterns.AssertionsStartWithDigit | parser.go:66 | an assertions line starts with a digit |
| Patterns.FailuresStartsWithF | parser.go:137 | a Failures line starts with `F` |
| Patterns.LinePatternsDisjoint | parser.go:96-139 | no line matches two of the header, summary, assertions and Failures patterns |
| Parser.ParseTime | parser.go:161-167 | a captured seconds text never gives a negative time |
| Parser.CursorTargetsFailedTest | parser.go:118 | under the invariant each cursor designates a pending FAIL test |
| Parser.AddTest | parser.go:110-121 | the test is appended; a cursor for it is appended exactly when it failed; cursors stay in range |
| Parser.AddTestKeepsInv | parser.go:110-121 | a new test keeps the cursors equal to the FAIL positions and only FAIL tests with output |
| Parser.StartTest | parser.go:96-121 | a header panics exactly when it is FAIL and has no space; otherwise the cursors stay in range |
| Parser.SealPackage | parser.go:122-132 | the fresh state's cursors are in range; the full effect of a summary line is stated by `ParserSteps.SummaryStep` |
| Parser.CountFailure | parser.go:141-148 | tests and packages unchanged; every cursor still designates the same test |
| Parser.AppendOutput | parser.go:150-153 | cursors stay in range |
| Parser.ReadFailure | parser.go:140-154 | cursors stay in range |
| Parser.Step | parser.go:96-155 | cursors stay in range after any line |
| Parser.RunFrom | parser.go:86-156 | cursors stay in range after any input; which test each failure entry goes to is stated by `ParserBlocks.OneTestBlock`, `NextTestBlock` and `TwoTestBlocks` |
| Parser.StartTestKeepsInv | parser.go:96-121 | a header keeps the invariant |
| Parser.SealPackageKeepsInv | parser.go:122-132 | a summary keeps the invariant |
| Parser.CountFailureKeepsInv | parser.go:141-148 | a `*` countdown keeps the invariant |
| Parser.AppendOutputKeepsInv | parser.go:150-153 | appending output to the cursor's test keeps the invariant |
| Parser.ReadFailureKeepsInv | parser.go:140-154 | a failure-detail line keeps the invariant |
| Parser.StepKeepsInv | parser.go:96-155 | every line keeps the invariant |
| Parser.RunKeepsInv | parser.go:86-156 | every reachable state satisfies the invariant |
| Parser.RunFromSnoc | parser.go:86-156 | running one more line is one more step, and a panic persists |
| Parser.PanicIsFinal | parser.go:142-151 | once a run has panicked, further lines do not change its outcome |
| Parser.NextLine | parser.go:86-156 | the run over one more line is one step after the run so far |
| Parser.PanicStops | parser.go:142-151 | a panic within the first lines is the outcome of the whole input |
| Parser.StartTestLine | parser.go:96-121 | the in-place header update equals `StartTest` |
| Parser.ReadFailureLine | parser.go:140-154 | the in-place countdown and output append equal `ReadFailure` |
| Parser.ParseLine | parser.go:96-155 | the loop body equals `Step` |
| Parser.ParseLines | parser.go:86-156 | the read loop equals `RunFrom` from the start state |
| Parser.Parse | parser.go:69-159 | the report is the sealed packages of the run, or the panic that stopped it; the run's packages follow the outline (`ParserOutline.ReportFollowsOutline`) and each failure entry reaches the test it belongs to (`ParserBlocks.TwoTestBlocks`) |
| Parser.ParseReport | parser.go:69-159 | the report of a whole input as a function: the sealed packages of `RunFrom` from the start state, or its panic; its properties are `ParserOutline.ReportFollowsOutline`, `ParserSteps.OnlyFailedTestsHaveOutput` and `JUnitFacts.ParsedSuites` |
| ParserOutline.HeadingsSnoc | parser.go:121 | one more test adds its heading at the end |
| ParserOutline.ReadFailureKeepsSketch | parser.go:140-154 | failure detail never changes the names or outcomes of tests, or the packages |
| ParserOutline.HeaderFollowsOutline | parser.go:96-121 | a header adds its name and outcome to the pending tests |
| ParserOutline.SealKeepsOutline | parser.go:122-132 | a summary seals the pending tests under its name and time and leaves none pending |
| ParserOutline.SummaryFollowsOutline | parser.go:122-132 | a summary line never panics and seals as the outline does |
| ParserOutline.StepFollowsOutline | parser.go:96-155 | every line moves the builder's outline as `NextOutline` does |
| ParserOutline.RunFollowsOutline | parser.go:86-156 | the packages and pending tests of a run are those of the input's outline |
| ParserOutline.OutlineSnoc | parser.go:86-156 | the outline and the header list grow line by line |
| ParserOutline.NextOutlineWithoutSummary | parser.go:96-121 | a line that is not a summary seals nothing and adds at most its heading |
| ParserOutline.NoSummaryOnlyPends | parser.go:121-129 | lines without a summary only add pending headers: tests after the last summary never reach a package |
| ParserOutline.SummarySealsSegment | parser.go:122-131 | a summary seals, after the earlier packages, the pending headers followed by those since, under its name and time |
| ParserOutline.PackageHoldsHeadersSincePreviousSummary | parser.go:121-131 | a package holds exactly the headers since the previous summary line or the start |
| ParserOutline.OneSealedPerSummary | parser.go:122-127 | one package per summary line |
| ParserOutline.ReportFollowsOutline | parser.go:69-159 | the parsed packages are those of the outline, in order, one per summary line |
| ParserSteps.HeaderStep | parser.go:96-121 | a header panics exactly when FAIL without a space; otherwise appends its test with no output and, for FAIL, a cursor with the marker count; nothing else changes |
| ParserSteps.SummaryStep | parser.go:122-132 | a summary line never panics; it appends a package with the line's name and time holding the pending tests with their outputs, and leaves no pending tests, no cursors, cursor index -1 and failure reading off |
| ParserSteps.IgnoredBeforeFirstTest | parser.go:133 | before any header, lines other than summaries change nothing |
| ParserSteps.AssertionsLineStopsReading | parser.go:134-136 | an assertions line ends failure reading and changes nothing else |
| ParserSteps.FailuresLineStartsReading | parser.go:137-139 | a Failures line starts failure reading at the first cursor |
| ParserSteps.DetailIgnoredOutsideFailures | parser.go:140 | outside a Failures block an unclaimed line changes nothing |
| ParserSteps.DetailLineAppendsToCursor | parser.go:150-153 | inside a Failures block a non-`*` line appends its trimmed text to the cursor's test only; empty lines do nothing; a cursor out of range panics |
| ParserSteps.StartsFailureNonEmpty | parser.go:141 | a `*` line is not empty |
| ParserSteps.CountFailureMoves | parser.go:141-147 | the countdown panics exactly when the cursor is out of range or must move past the end; otherwise it decrements the current entry, and the next one when it moves on |
| ParserSteps.AppendOutputAppends | parser.go:150-153 | the trimmed text is appended to the output of the cursor's test and of no other test |
| ParserSteps.StarLineCountsDown | parser.go:141-153 | a `*` line counts down, moves the cursor by at most one, then appends its text to the test the cursor now designates |
| ParserSteps.StartInv | parser.go:73-83 | the initial state satisfies the invariant |
| ParserSteps.OnlyFailedTestsHaveOutput | parser.go:100-153 | in every parsed report, PASS and SKIP tests have no output |
| ParserBlocks.RunFromConcat | parser.go:87-156 | reading two inputs one after the other is reading their concatenation; a panic in the first is the outcome of the whole |
| ParserBlocks.DetailLine | parser.go:150-153 | inside a Failures block a detail line gives its trimmed text, if not empty, to the cursor's test and changes nothing else |
| ParserBlocks.DetailsAppend | parser.go:150-153 | the detail lines under a `*` line go, in order, to the cursor's test and change nothing else |
| ParserBlocks.StarStays | parser.go:141-153 | a `*` line while the cursor's test has markers left uses one of them and gives its text to that test |
| ParserBlocks.StarMoves | parser.go:141-153 | a `*` line once the cursor's test has none left moves the cursor on; the next failed test loses a marker and receives the text |
| ParserBlocks.EntryStays | parser.go:140-153 | a whole entry, `*` line and details, goes to the cursor's test while it has markers left |
| ParserBlocks.EntryMoves | parser.go:140-153 | a whole entry goes to the next failed test once the cursor's test has none left |
| ParserBlocks.OneTestBlock | parser.go:140-153 | a run of entries no longer than the cursor's countdown all goes to the cursor's test, in order, one marker per entry |
| ParserBlocks.NextTestBlock | parser.go:140-153 | after the cursor's test has used its markers, the next run of entries goes entirely to the next failed test, in order |
| ParserBlocks.FirstTestBlock | parser.go:137-153 | from the `Failures:` line, a FAIL header with N markers receives the next N or fewer entries with all their detail lines, in order |
| ParserBlocks.TwoTestRun | parser.go:137-153 | a Failures block after two FAIL headers runs as: the first test receives its entries, the cursor moves on, the second test receives the rest |
| ParserBlocks.ReceiveMoveReceive | parser.go:141-153 | after that run only the two failed tests have new output, each its own entries |
| ParserBlocks.CursorsInOrder | parser.go:110-121 | the cursors' tests come in header order |
| ParserBlocks.TwoTestBlocks | goconvey-junit-report_test.go:146-175 | two consecutive FAIL tests: the first receives exactly the entries its markers count and the second the rest, each in order; no other test, and no package, changes |
| ParseTimes.RemoveAllConcat | parser.go:162 | deleting a character distributes over concatenation |
| ParseTimes.RemoveAllAbsent | parser.go:162 | deleting an absent character changes nothing |
| ParseTimes.DigitsValueConcat | parser.go:162 | the value of joined digit strings is the first shifted by the second's length plus the second |
| ParseTimes.DropDot | parser.go:162 | deleting the dot of `whole.frac` joins the two digit runs |
| ParseTimes.ParseTimeDropsDot | parser.go:161-167 | `whole.frac` is a seconds text and reads as the integer its digits write |
| ParseTimes.ParseTimeOfDigits | parser.go:161-167 | a time whose dot-free text is an in-range decimal reads as it |
| ParseTimes.ParseTimeMilliseconds | parser.go:161-167 | with three decimals the seconds read as milliseconds |
| ParseTimes.SampleTimeTen | goconvey-junit-report_test.go:27 | `0.010` reads as 10 |
| ParseTimes.SampleTimeHundred | goconvey-junit-report_test.go:58 | `0.100` reads as 100 |
| ParseTimes.ParseTimeIgnoresScale | parser.go:162 | `0.1` reads as 1: the dot's position is lost |
| JUnit.NewJUnitProperty | junit-formatter.go:67-72 | the property carries the given name and value |
| JUnit.ClassName | junit-formatter.go:94-97 | the text after the package name's last `/`; its facts are stated by `ClassNameShape` |
| JUnit.FormatTime | junit-formatter.go:159-161 | milliseconds as seconds with three decimals; its facts are stated by `FormatTimeShape` and `JUnitFacts.FormatTimeRoundTrip` |
| JUnit.CaseOf | junit-formatter.go:104-123 | the case of one test; its facts are stated by `JUnitFacts.CaseOfTest` |
| JUnit.CasesOf | junit-formatter.go:103-126 | one case per test |
| JUnit.SuiteOf | junit-formatter.go:82-128 | the suite of one package; its facts are stated by `JUnitFacts.SuiteCounters` |
| JUnit.SuitesOf | junit-formatter.go:81-128 | one suite per package |
| JUnit.ReportSuites | junit-formatter.go:76-131 | the records of a whole report; its facts are stated by `JUnitFacts.ReportRoot` and `JUnitFacts.ParsedSuites` |
| JUnit.ClassNameShape | junit-formatter.go:94-97 | the class name has no `/`, is a suffix of the package name preceded by its last `/`, and is the whole name when there is none |
| JUnit.Pad3 | junit-formatter.go:160 | three digits whose value is the number |
| JUnit.FormatTimeShape | junit-formatter.go:159-161 | whole seconds without leading zeros, a dot and three digits of milliseconds, after a minus sign when negative |
| JUnit.CasesStep | junit-formatter.go:103-126 | the cases of one more test end with its case |
| JUnit.SuiteAt | junit-formatter.go:81-128 | the suite at each position is the suite of the package at that position |
| JUnit.TotalsStep | junit-formatter.go:91-128 | one more package adds its tests, failures and time to the totals and its suite at the end |
| JUnit.JUnitReportXML | junit-formatter.go:76-131 | the records built equal `ReportSuites` of the report |
| JUnit.ConvertPackages | junit-formatter.go:77-129 | the root's counters are the totals over the packages, its suites one per package in order, its other fields unset |
| JUnit.AddPackage | junit-formatter.go:82-128 | one package adds its test, failure and time counts to the root and appends its suite |
| JUnit.AddCases | junit-formatter.go:103-126 | the suite and root gain the FAIL count, the suite the SKIP count and one case per test in order |
| JUnit.AddCase | junit-formatter.go:104-125 | one test adds one to the failures or skipped counters as its outcome says and appends its case |
| JUnit.CountFailures | junit-formatter.go:150-157 | the number of FAIL tests |
| JUnitFacts.CaseOfTest | junit-formatter.go:104-123 | a case is named after its test in the package's class; a failure record exactly for FAIL, with message `Failed`, empty type and the output joined by newlines; a skipped marker exactly for SKIP; never an error |
| JUnitFacts.CasesFollowTests | junit-formatter.go:103-126 | one case per test, in order |
| JUnitFacts.CasesCount | junit-formatter.go:110-123 | the cases with a failure record number the FAIL tests; those with a skipped marker the SKIP tests |
| JUnitFacts.SuiteCounters | junit-formatter.go:82-128 | a suite's counters agree with its cases; one `go.version` property; errors, disabled and package unset; every case in the package's class |
| JUnitFacts.RootSums | junit-formatter.go:91-113 | the root's tests and failures are the sums over the suites |
| JUnitFacts.ReportRoot | junit-formatter.go:76-131 | one suite per package in order, root counters are the suites' sums, root time is the formatted sum of package times, no root name, errors or disabled |
| JUnitFacts.FormatTimeRoundTrip | junit-formatter.go:159-161 | the time text reads back through `parseTime` as the time it came from |
| JUnitFacts.NegativeTimeRoundTrip | junit-formatter.go:159-161 | the round trip holds for negative times too |
| JUnitFacts.FormatTimeSamples | junit-formatter.go:159-161 | 1500 is `1.500` and 10 is `0.010` |
| JUnitFacts.RootAttributesPresent | junit-formatter.go:12-22 | the root writes `tests` and `time`, and `failures` exactly when some test failed; never `errors`, `disabled` or `name` |
| JUnitFacts.SuiteAttributesPresent | junit-formatter.go:24-36 | a suite writes `tests` and `time`, `failures` and `skipped` exactly when nonzero, `name` exactly when set; never `errors`, `disabled` or `package` |
| JUnitFacts.CaseAttributesPresent | junit-formatter.go:38-46 | a case writes `classname` and `name`, never `assertions` |
| JUnitFacts.ParsedSuites | junit-formatter.go:81-128 | a parsed input gives one suite per summary line |

## Left out

- Reading the input: `bufio.Reader.ReadLine`, its I/O errors and its splitting of over-long lines (`isPrefix` is ignored by the source). The input is the sequence of lines.
- Strings are sequences of Unicode scalar values, not bytes. Invalid UTF-8 is not modelled. Byte positions in `line[strings.LastIndex(line, " "):]` and `len(line) > 0` agree with character positions for the counts and tests made there.
- The general regular-expression engine. Each pattern is a predicate. Lemmas in `patterns.dfy` tie the predicates to the pattern they stand for. Go's `\s` is tab, newline, form feed, carriage return and space. `(?i)` is ASCII case folding, which is exact for the letters of the four keywords.
- The unused `error_` marker is carried in the profile and used by no classifier, as in the source.
- `test != nil` is a flag set by the first header. The source only tests the pointer for nil.
- Pointer aliasing between `tests` and `failedTests` is modelled by an index into the pending tests. Both lists are reset at the same time, so a cursor never outlives its test.
- `xml.MarshalIndent`, XML escaping, indentation, the XML header and the buffered writes. The model stops at the records. The attributes `omitempty` keeps are stated by `RootAttributes`, `SuiteAttributes` and `CaseAttributes`.
- `runtime.Version()` is a parameter (`goVersion`).
- JUnit.FormatTime: `%.3f` of `float64(t)/1000` is modelled with integer division and remainder. This agrees while |t| < 1000·2^43 ms (about 8.8·10^15); above that the float rounding can differ. For example, t = 8984127552670876 gives `8984127552670.877` with floats and `8984127552670.876` in the model. `parseTime` accepts such times.
- JUnit.ConvertPackages: the sums of tests, failures and times are unbounded integers. The source's 64-bit `int` could wrap on absurdly large inputs.
- JUnitFacts.FormatTimeRoundTrip: requires the time to fit `strconv.Atoi`'s 64-bit range, which `parseTime` needs to read it back.
- `JUnitError` is declared as a record but never built by the source, so no case carries one.
- The command-line program (`goconvey-junit-report.go`: flags, stdin/stdout, exit code) is not part of this model.
- `parseTime` deletes the dot rather than scaling. Seconds written with other than three decimals are therefore not read as milliseconds (`ParseTimes.ParseTimeIgnoresScale`). This is the source's behaviour and is modelled as written.
