/** The marker profiles and the line classifiers built from them
    (parser.go:40-67, 96-118, 137-141). The regular expressions of the
    source are written out as predicates over the characters of a line. */
module Markers {
  import opened Wrappers
  import opened Text
  import opened Reports

  /** The symbols one profile uses to mark outcomes on a test's header line.
      `error` is selected but no pattern uses it. */
  datatype Profile = Profile(success: char, failure: char, error: char, skip: char, special: string)

  /** The glyph profile: a check mark, a ballot x, a fire and a warning sign. */
  const Glyphs: Profile :=
    Profile('\U{2714}', '\U{2718}', '\U{1F525}', '\U{26A0}', "\U{2714}\U{2718}\U{1F525}\U{26A0}")

  /** The dot profile, for output produced on Windows consoles. */
  const Dots: Profile := Profile('.', 'x', 'E', 'S', ".xES")

  /** The properties of a profile the classifiers rely on: markers are not
      white space, success and skip differ, and every marker is special. */
  predicate WellFormed(p: Profile) {
    && !IsRegexSpace(p.success) && !IsRegexSpace(p.skip) && p.success != p.skip
    && p.success in p.special && p.failure in p.special && p.skip in p.special
    && forall i :: 0 <= i < |p.special| ==> !IsUnicodeSpace(p.special[i])
  }

  /** The profile `initialize` selects; both choices are well formed. */
  function Initialize(useDot: bool): (p: Profile)
    ensures WellFormed(p)
    ensures p.special == [p.success, p.failure, p.error, p.skip]
  {
    if useDot then Dots else Glyphs
  }

  function AsciiLower(c: char): char {
    if 'A' <= c <= 'Z' then (c as int + 32) as char else c
  }

  /** `s` starts with `lower` up to ASCII case. */
  predicate HasPrefixFold(s: string, lower: string) {
    |lower| <= |s| && forall i :: 0 <= i < |lower| ==> AsciiLower(s[i]) == lower[i]
  }

  predicate StartsWithKeyword(s: string) {
    HasPrefixFold(s, "given") || HasPrefixFold(s, "when")
    || HasPrefixFold(s, "then") || HasPrefixFold(s, "and")
  }

  /** The test-header pattern: white space, then a narration keyword in any
      case, with no word boundary after it. */
  predicate IsTestHeader(line: string) {
    var k := LeadingRun(line, IsRegexSpace);
    k >= 1 && StartsWithKeyword(line[k..])
  }

  /** The success pattern: a white-space character followed only by
      success markers (possibly none) up to the end of the line. */
  predicate EndsWithSuccess(p: Profile, line: string) {
    var n := TrailingRun(line, c => c == p.success);
    n < |line| && IsRegexSpace(line[|line| - n - 1])
  }

  /** The skip pattern: a white-space character and exactly one skip marker
      at the end of the line. */
  predicate EndsWithSkip(p: Profile, line: string) {
    |line| >= 2 && line[|line| - 1] == p.skip && IsRegexSpace(line[|line| - 2])
  }

  /** A header's outcome: FAIL unless the success pattern matches; the skip
      pattern, checked last, wins over both. */
  function HeaderResult(p: Profile, line: string): (r: Result)
    ensures r == SKIP <==> EndsWithSkip(p, line)
    ensures r == PASS <==> EndsWithSuccess(p, line) && !EndsWithSkip(p, line)
    ensures r == FAIL <==> !EndsWithSuccess(p, line) && !EndsWithSkip(p, line)
  {
    var result := if EndsWithSuccess(p, line) then PASS else FAIL;
    if EndsWithSkip(p, line) then SKIP else result
  }

  /** The cut set of `strings.TrimRight(line, special)`. */
  function IsSpecial(p: Profile): char -> bool {
    c => c in p.special
  }

  /** The test's name: the header without its trailing run of special
      markers, then trimmed of white space. */
  function TestName(p: Profile, line: string): (name: string)
    ensures name == [] || (!IsUnicodeSpace(name[0]) && !IsUnicodeSpace(name[|name| - 1]))
  {
    TrimSpace(TrimRight(line, IsSpecial(p)))
  }

  /** The number of failure markers after the last ASCII space of a header;
      None where the line has no space, which the source slices at -1. */
  function FailureMarkers(p: Profile, line: string): (r: Option<nat>)
    ensures r.None? <==> ' ' !in line
    ensures r.Some? ==> r.value == multiset(line[LastIndex(line, ' ')..])[p.failure]
  {
    var i := LastIndex(line, ' ');
    if i < 0 then None else Some(Count(line[i..], p.failure))
  }

  /** The two captures of the package-summary pattern. */
  datatype Summary = Summary(name: string, seconds: string)

  predicate IsSecondsChar(c: char) {
    IsDigit(c) || c == '.'
  }

  /** `\d+\.\d+`: digits, one dot, digits. */
  predicate IsSecondsText(s: string) {
    var k := LeadingRun(s, IsDigit);
    1 <= k && k + 1 < |s| && s[k] == '.' && AllDigits(s[k + 1..])
  }

  const PassPrefix: string := "--- PASS: "
  const FailPrefix: string := "--- FAIL: "
  const SecondsSuffix: string := " seconds)"

  /** The fixed frame of a summary line: a status prefix, the closing
      ` seconds)`, and room for the captures between them. */
  predicate IsSummaryFrame(line: string) {
    && |line| >= 19
    && (HasPrefix(line, PassPrefix) || HasPrefix(line, FailPrefix))
    && HasSuffix(line, SecondsSuffix)
  }

  /** The captures within the text between the frame's two ends: the
      seconds are the trailing run of digits and dots, and the name is
      what precedes the ` (` in front of them. */
  function SplitCaptures(middle: string): (r: Option<Summary>)
    ensures r.Some? ==> |r.value.name| >= 1 && '\n' !in r.value.name && IsSecondsText(r.value.seconds)
    ensures r.Some? ==> middle == r.value.name + " (" + r.value.seconds
  {
    var cut := |middle| - TrailingRun(middle, IsSecondsChar);
    if IsSecondsText(middle[cut..]) && cut >= 3 && middle[cut - 2..cut] == " ("
       && '\n' !in middle[..cut - 2]
    then
      Split3(middle, cut - 2, cut);
      Some(Summary(middle[..cut - 2], middle[cut..]))
    else None
  }

  /** The package-summary pattern
      `--- PASS|FAIL: <name> (<digits>.<digits> seconds)`, where the name is
      at least one character other than a newline. */
  function MatchPackage(line: string): (r: Option<Summary>)
    ensures r.Some? ==> IsSummaryFrame(line)
    ensures r.Some? ==> |r.value.name| >= 1 && '\n' !in r.value.name && IsSecondsText(r.value.seconds)
  {
    if IsSummaryFrame(line) then SplitCaptures(line[10..|line| - 9]) else None
  }

  /** A matched line is the status prefix, the captured name, ` (`, the
      captured seconds and ` seconds)`, with nothing else around them. */
  lemma MatchedLineShape(line: string)
    requires MatchPackage(line).Some?
    ensures var sm := MatchPackage(line).value;
            line == line[..10] + sm.name + " (" + sm.seconds + SecondsSuffix
  {
    var sm := MatchPackage(line).value;
    Split3(line, 10, |line| - 9);
    Regroup(line[..10], sm.name, " (", sm.seconds, SecondsSuffix);
  }

  /** The assertions pattern: `<digits> assertion thus far` or
      `<digits> assertions thus far`, and nothing else on the line. */
  predicate IsAssertionsLine(line: string) {
    || (HasSuffix(line, " assertions thus far") && |line| > 20 && AllDigits(line[..|line| - 20]))
    || (HasSuffix(line, " assertion thus far") && |line| > 19 && AllDigits(line[..|line| - 19]))
  }

  /** The start of a Failures block. */
  predicate IsFailuresLine(line: string) {
    HasPrefix(line, "Failures:")
  }

  /** The start of one failure's detail: a `*` once the line is trimmed. */
  predicate StartsFailure(line: string) {
    HasPrefix(TrimSpace(line), "*")
  }
}
