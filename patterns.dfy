/** The line classifiers of markers.dfy against the regular expressions
    they stand for (parser.go:62-66, 98, 137-140): each predicate holds
    exactly when the pattern matches, and the patterns never overlap. */
module Patterns {
  import opened Wrappers
  import opened Text
  import opened Markers

  predicate AllRegexSpace(s: string) {
    forall i :: 0 <= i < |s| ==> IsRegexSpace(s[i])
  }

  predicate AllUnicodeSpace(s: string) {
    forall i :: 0 <= i < |s| ==> IsUnicodeSpace(s[i])
  }

  /** `(?i)^\s+(Given|When|Then|And)` matches exactly when some non-empty
      run of white space opens the line and a keyword follows it. */
  lemma HeaderPattern(line: string)
    ensures IsTestHeader(line)
            <==> exists k :: 1 <= k <= |line| && AllRegexSpace(line[..k]) && StartsWithKeyword(line[k..])
  {
    var m := LeadingRun(line, IsRegexSpace);
    if IsTestHeader(line) {
      assert AllRegexSpace(line[..m]);
    }
    if k :| 1 <= k <= |line| && AllRegexSpace(line[..k]) && StartsWithKeyword(line[k..]) {
      assert k < |line| && !IsRegexSpace(line[k]) by {
        assert |line[k..]| >= 3 && AsciiLower(line[k..][0]) in "gwta";
      }
      assert forall i :: 0 <= i < k ==> IsRegexSpace(line[i]) by {
        forall i | 0 <= i < k ensures IsRegexSpace(line[i]) { assert line[..k][i] == line[i]; }
      }
      LeadingRunExact(line, IsRegexSpace, k);
    }
  }

  /** `\s(<success>)*$` matches exactly when some white-space character is
      followed only by success markers up to the end of the line. */
  lemma SuccessPattern(p: Profile, line: string)
    requires !IsRegexSpace(p.success)
    ensures EndsWithSuccess(p, line)
            <==> exists k :: 0 <= k < |line| && IsRegexSpace(line[k])
                             && forall i :: k < i < |line| ==> line[i] == p.success
  {
    var keep := c => c == p.success;
    if k :| 0 <= k < |line| && IsRegexSpace(line[k]) && forall i :: k < i < |line| ==> line[i] == p.success {
      TrailingRunExact(line, keep, |line| - k - 1);
    }
  }

  /** The summary pattern matches every line of the form it describes,
      capturing exactly the name and the seconds it was built from. */
  lemma PackagePattern(line: string, status: string, name: string, seconds: string)
    requires status == PassPrefix || status == FailPrefix
    requires |name| >= 1 && '\n' !in name && IsSecondsText(seconds)
    requires line == status + name + " (" + seconds + SecondsSuffix
    ensures MatchPackage(line).Some?
    ensures MatchPackage(line).value.name == name && MatchPackage(line).value.seconds == seconds
  {
    SummaryLineFacts(line, status, name, seconds);
    CapturesOf(name, seconds);
  }

  lemma SummaryLineFacts(line: string, status: string, name: string, seconds: string)
    requires status == PassPrefix || status == FailPrefix
    requires |name| >= 1 && |seconds| >= 3
    requires line == status + name + " (" + seconds + SecondsSuffix
    ensures IsSummaryFrame(line)
    ensures line[10..|line| - 9] == name + " (" + seconds
  {
    var middle := name + " (" + seconds;
    Regroup(status, name, " (", seconds, SecondsSuffix);
    Concat3Parts(status, middle, SecondsSuffix);
  }

  /** The captures of a middle built from a name and a seconds text are
      that name and those seconds. */
  lemma CapturesOf(name: string, seconds: string)
    requires |name| >= 1 && '\n' !in name && IsSecondsText(seconds)
    ensures SplitCaptures(name + " (" + seconds).Some?
    ensures SplitCaptures(name + " (" + seconds).value.name == name
    ensures SplitCaptures(name + " (" + seconds).value.seconds == seconds
  {
    var middle := name + " (" + seconds;
    SecondsChars(seconds);
    Concat3Parts(name, " (", seconds);
    TrailingRunExact(middle, IsSecondsChar, |seconds|);
  }

  /** Every character of a seconds text is a digit or the dot. */
  lemma SecondsChars(seconds: string)
    requires IsSecondsText(seconds)
    ensures forall i :: 0 <= i < |seconds| ==> IsSecondsChar(seconds[i])
  {
    var k := LeadingRun(seconds, IsDigit);
    forall i | 0 <= i < |seconds| ensures IsSecondsChar(seconds[i]) {
      if i > k { assert seconds[k + 1..][i - k - 1] == seconds[i]; }
    }
  }

  /** The test name of a header written as indentation, a name, white
      space and a run of markers is the name itself. */
  lemma NameOfHeader(p: Profile, line: string, indent: string, name: string, gap: string, marks: string)
    requires WellFormed(p)
    requires line == indent + name + gap + marks
    requires AllUnicodeSpace(indent) && AllUnicodeSpace(gap)
    requires forall i :: 0 <= i < |marks| ==> marks[i] in p.special
    requires name != [] && !IsUnicodeSpace(name[0]) && !IsUnicodeSpace(name[|name| - 1])
    requires name[|name| - 1] !in p.special
    ensures TestName(p, line) == name
  {
    assert forall c :: c in p.special ==> !IsUnicodeSpace(c);
    var rest := name + gap;
    ConcatAssoc(indent, name, gap);
    TrimRightSuffix(indent + rest, marks, IsSpecial(p));
    assert (indent + rest)[|indent + rest| - 1] == rest[|rest| - 1];
    TrimLeftPrefix(indent, rest, IsUnicodeSpace);
    TrimRightSuffix(name, gap, IsUnicodeSpace);
  }

  /** The first character of a line each pattern accepts: white space
      for a header, `-` for a summary, a digit for an assertions line and
      `F` for a Failures line. */
  lemma HeaderStartsWithSpace(line: string)
    requires IsTestHeader(line)
    ensures |line| > 0 && IsRegexSpace(line[0])
  {
  }

  lemma SummaryStartsWithDash(line: string)
    requires MatchPackage(line).Some?
    ensures |line| > 0 && line[0] == '-'
  {
    assert line[0] == line[..10][0];
  }

  lemma AssertionsStartWithDigit(line: string)
    requires IsAssertionsLine(line)
    ensures |line| > 0 && IsDigit(line[0])
  {
    if HasSuffix(line, " assertions thus far") && |line| > 20 && AllDigits(line[..|line| - 20]) {
      assert line[0] == line[..|line| - 20][0];
    } else {
      assert line[0] == line[..|line| - 19][0];
    }
  }

  lemma FailuresStartsWithF(line: string)
    requires IsFailuresLine(line)
    ensures |line| > 0 && line[0] == 'F'
  {
    assert line[0] == line[..9][0];
  }

  /** The four line patterns the parser tries never match the same line,
      so the order of the checks only matters through the state they
      depend on. */
  lemma LinePatternsDisjoint(line: string)
    ensures IsTestHeader(line) ==> MatchPackage(line).None? && !IsAssertionsLine(line) && !IsFailuresLine(line)
    ensures MatchPackage(line).Some? ==> !IsAssertionsLine(line) && !IsFailuresLine(line)
    ensures IsAssertionsLine(line) ==> !IsFailuresLine(line)
  {
    if IsTestHeader(line) { HeaderStartsWithSpace(line); }
    if MatchPackage(line).Some? { SummaryStartsWithDash(line); }
    if IsAssertionsLine(line) { AssertionsStartWithDigit(line); }
    if IsFailuresLine(line) { FailuresStartsWithF(line); }
  }
}
