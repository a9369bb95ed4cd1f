/** How the read loop of parser.go:137-154 shares a Failures block out
    among the failed tests: every `*` entry, with the detail lines under it,
    goes to the test whose failure markers it uses up, and the entries of
    one test come before those of the next, as the failed tests' headers do. */
module ParserBlocks {
  import opened Wrappers
  import opened Text
  import opened Reports
  import opened Markers
  import opened Parser
  import opened ParserSteps

  /** One failure reported in a Failures block: its `*` line and the
      detail lines under it. */
  datatype Entry = Entry(head: string, details: seq<string>)

  /** The head opens a failure and no detail line does; no line is claimed
      by an earlier branch of the loop. */
  predicate WellFormedEntry(e: Entry) {
    IsDetailLine(e.head) && StartsFailure(e.head) && PlainDetails(e.details)
  }

  /** Lines no earlier branch of the loop claims and that open no failure. */
  predicate PlainDetails(details: seq<string>) {
    details != [] ==> IsDetailLine(details[0]) && !StartsFailure(details[0]) && PlainDetails(details[1..])
  }

  predicate WellFormedBlock(entries: seq<Entry>) {
    entries != [] ==> WellFormedEntry(entries[0]) && WellFormedBlock(entries[1..])
  }

  /** The output detail lines leave: empty lines add nothing, the others
      their trimmed text. */
  function DetailTexts(details: seq<string>): seq<string> {
    if details == [] then []
    else (if |details[0]| > 0 then [TrimSpace(details[0])] else []) + DetailTexts(details[1..])
  }

  function EntryLines(e: Entry): seq<string> {
    [e.head] + e.details
  }

  function EntryTexts(e: Entry): seq<string> {
    [TrimSpace(e.head)] + DetailTexts(e.details)
  }

  /** The lines of a run of entries, one after the other. */
  function BlockLines(entries: seq<Entry>): seq<string> {
    if entries == [] then [] else EntryLines(entries[0]) + BlockLines(entries[1..])
  }

  /** The output a run of entries leaves, in order. */
  function BlockTexts(entries: seq<Entry>): seq<string> {
    if entries == [] then [] else EntryTexts(entries[0]) + BlockTexts(entries[1..])
  }

  /** A state reading a Failures block whose cursor designates a failed test. */
  predicate Reading(s: State) {
    Bounded(s) && s.sawTest && s.readingFailures && 0 <= s.currFailedTestIndex < |s.failedTests|
  }

  /** The test the cursor designates receives `texts` after its output and
      its countdown drops by `n`; nothing else changes. */
  function Receive(s: State, texts: seq<string>, n: int): (r: State)
    requires Reading(s)
    ensures Reading(r) && r.currFailedTestIndex == s.currFailedTestIndex
  {
    var c := s.currFailedTestIndex;
    var t := s.failedTests[c].test;
    s.(tests := s.tests[t := s.tests[t].(output := s.tests[t].output + texts)],
       failedTests := s.failedTests[c := s.failedTests[c].(totalFails := s.failedTests[c].totalFails - n)])
  }

  /** The cursor moves on to the next failed test, and the countdown it
      leaves drops by one. */
  function MoveOn(s: State): (r: State)
    requires Reading(s) && s.currFailedTestIndex + 1 < |s.failedTests|
    ensures Reading(r) && r.currFailedTestIndex == s.currFailedTestIndex + 1
  {
    var c := s.currFailedTestIndex;
    s.(failedTests := s.failedTests[c := s.failedTests[c].(totalFails := s.failedTests[c].totalFails - 1)],
       currFailedTestIndex := c + 1)
  }

  lemma ReceiveTwice(s: State, a: seq<string>, n: int, b: seq<string>, m: int)
    requires Reading(s)
    ensures Receive(Receive(s, a, n), b, m) == Receive(s, a + b, n + m)
  {
    var t := s.failedTests[s.currFailedTestIndex].test;
    assert s.tests[t].output + a + b == s.tests[t].output + (a + b);
  }

  /** Receiving output without using a marker leaves the countdowns alone. */
  lemma ReceiveKeepsCountdowns(s: State, texts: seq<string>)
    requires Reading(s)
    ensures Receive(s, texts, 0).failedTests == s.failedTests
  {
    var c := s.currFailedTestIndex;
    assert s.failedTests[c].(totalFails := s.failedTests[c].totalFails - 0) == s.failedTests[c];
  }

  lemma ReceiveNothing(s: State)
    requires Reading(s)
    ensures Receive(s, [], 0) == s
  {
    var t := s.failedTests[s.currFailedTestIndex].test;
    assert s.tests[t].output + [] == s.tests[t].output;
  }

  /** Reading `a` and then `b` is reading `b` from where `a` left off; a
      panic in `a` is the outcome of the whole. */
  lemma {:induction false} RunFromConcat(p: Profile, s: State, a: seq<string>, b: seq<string>)
    requires Bounded(s)
    ensures RunFrom(p, s, a).Err? ==> RunFrom(p, s, a + b) == RunFrom(p, s, a)
    ensures RunFrom(p, s, a).Ok? ==> RunFrom(p, s, a + b) == RunFrom(p, RunFrom(p, s, a).value, b)
    decreases |b|
  {
    if b == [] {
      assert a + b == a;
    } else {
      var init, last := b[..|b| - 1], b[|b| - 1];
      assert b == init + [last];
      assert a + b == (a + init) + [last];
      RunFromConcat(p, s, a, init);
      RunFromSnoc(p, s, a + init, last);
      if RunFrom(p, s, a).Ok? {
        RunFromSnoc(p, RunFrom(p, s, a).value, init, last);
      }
    }
  }

  /** Two runs that meet make one run. */
  lemma Chain(p: Profile, s: State, a: seq<string>, b: seq<string>, mid: State, final: State)
    requires Bounded(s) && RunFrom(p, s, a) == Ok(mid) && RunFrom(p, mid, b) == Ok(final)
    ensures RunFrom(p, s, a + b) == Ok(final)
  {
    RunFromConcat(p, s, a, b);
  }

  /** An entry's run followed by the run of the entries after it. */
  lemma ConsRun(p: Profile, s: State, entries: seq<Entry>, mid: State, final: State)
    requires Bounded(s) && entries != []
    requires RunFrom(p, s, EntryLines(entries[0])) == Ok(mid)
    requires RunFrom(p, mid, BlockLines(entries[1..])) == Ok(final)
    ensures RunFrom(p, s, BlockLines(entries)) == Ok(final)
  {
    assert BlockLines(entries) == EntryLines(entries[0]) + BlockLines(entries[1..]);
    Chain(p, s, EntryLines(entries[0]), BlockLines(entries[1..]), mid, final);
  }

  /** One detail line under a `*` line: its trimmed text, when it has
      any, goes to the test the cursor designates. */
  lemma DetailLine(p: Profile, s: State, line: string)
    requires Reading(s) && IsDetailLine(line) && !StartsFailure(line)
    ensures RunFrom(p, s, [line]) == Ok(Receive(s, if |line| > 0 then [TrimSpace(line)] else [], 0))
  {
    OneLineRun(p, s, line);
    DetailLineAppendsToCursor(p, s, line);
    if |line| > 0 {
      ReceiveKeepsCountdowns(s, [TrimSpace(line)]);
      assert Step(p, s, line).value.tests == Receive(s, [TrimSpace(line)], 0).tests;
    } else {
      ReceiveNothing(s);
    }
  }

  /** Detail lines under a `*` line go, in order, to the test the cursor
      designates; nothing else changes. */
  lemma {:induction false} DetailsAppend(p: Profile, s: State, details: seq<string>)
    requires Reading(s) && PlainDetails(details)
    ensures RunFrom(p, s, details) == Ok(Receive(s, DetailTexts(details), 0))
    decreases |details|
  {
    if details == [] {
      ReceiveNothing(s);
    } else {
      var first := if |details[0]| > 0 then [TrimSpace(details[0])] else [];
      var rest := details[1..];
      assert [details[0]] + rest == details;
      DetailLine(p, s, details[0]);
      DetailsAppend(p, Receive(s, first, 0), rest);
      ReceiveTwice(s, first, 0, DetailTexts(rest), 0);
      Chain(p, s, [details[0]], rest, Receive(s, first, 0), Receive(s, DetailTexts(details), 0));
    }
  }

  /** Running one line is one step. */
  lemma OneLineRun(p: Profile, s: State, line: string)
    requires Bounded(s)
    ensures RunFrom(p, s, [line]) == Step(p, s, line)
  {
    assert [line][..0] == [];
  }

  /** The state a `*` line leaves, as `StarLineCountsDown` describes it,
      is the cursor's test receiving the text when the cursor stays, and
      the next failed test receiving it when the cursor moves on. */
  lemma CountedState(s: State, r: State, text: string, j: int)
    requires Reading(s) && (j == s.currFailedTestIndex || j == s.currFailedTestIndex + 1) && j < |s.failedTests|
    requires r.currFailedTestIndex == j && |r.failedTests| == |s.failedTests|
    requires forall k :: 0 <= k < |s.failedTests| ==>
               r.failedTests[k].test == s.failedTests[k].test
               && r.failedTests[k].totalFails
                  == s.failedTests[k].totalFails - (if k == s.currFailedTestIndex || k == j then 1 else 0)
    requires r.packages == s.packages && r.readingFailures && r.sawTest && |r.tests| == |s.tests|
    requires var t := s.failedTests[j].test;
             && r.tests[t] == s.tests[t].(output := s.tests[t].output + [text])
             && forall m :: 0 <= m < |s.tests| && m != t ==> r.tests[m] == s.tests[m]
    ensures j == s.currFailedTestIndex ==> r == Receive(s, [text], 1)
    ensures j == s.currFailedTestIndex + 1 ==> r == Receive(MoveOn(s), [text], 1)
  {
    var want := if j == s.currFailedTestIndex then Receive(s, [text], 1) else Receive(MoveOn(s), [text], 1);
    assert r.tests == want.tests;
    assert r.failedTests == want.failedTests;
  }

  /** A `*` line while the cursor's test has failure markers left: one of
      them is used up and the line's text goes to that test. */
  lemma StarStays(p: Profile, s: State, line: string)
    requires Reading(s) && IsDetailLine(line) && StartsFailure(line)
    requires s.failedTests[s.currFailedTestIndex].totalFails > 0
    ensures RunFrom(p, s, [line]) == Ok(Receive(s, [TrimSpace(line)], 1))
  {
    StarLineCountsDown(p, s, line);
    CountedState(s, Step(p, s, line).value, TrimSpace(line), s.currFailedTestIndex);
    OneLineRun(p, s, line);
  }

  /** A `*` line once the cursor's test has used up its failure markers:
      the cursor moves on to the next failed test, which loses a marker
      and receives the line's text. */
  lemma StarMoves(p: Profile, s: State, line: string)
    requires Reading(s) && IsDetailLine(line) && StartsFailure(line)
    requires s.failedTests[s.currFailedTestIndex].totalFails <= 0
    requires s.currFailedTestIndex + 1 < |s.failedTests|
    ensures RunFrom(p, s, [line]) == Ok(Receive(MoveOn(s), [TrimSpace(line)], 1))
  {
    StarLineCountsDown(p, s, line);
    CountedState(s, Step(p, s, line).value, TrimSpace(line), s.currFailedTestIndex + 1);
    OneLineRun(p, s, line);
  }

  /** A whole entry while the cursor's test has failure markers left:
      all of its output goes to that test, which loses one marker. */
  lemma EntryStays(p: Profile, s: State, e: Entry)
    requires Reading(s) && WellFormedEntry(e)
    requires s.failedTests[s.currFailedTestIndex].totalFails > 0
    ensures RunFrom(p, s, EntryLines(e)) == Ok(Receive(s, EntryTexts(e), 1))
  {
    var head := Receive(s, [TrimSpace(e.head)], 1);
    var final := Receive(s, EntryTexts(e), 1);
    StarStays(p, s, e.head);
    DetailsAppend(p, head, e.details);
    assert Receive(head, DetailTexts(e.details), 0) == final by {
      ReceiveTwice(s, [TrimSpace(e.head)], 1, DetailTexts(e.details), 0);
    }
    Chain(p, s, [e.head], e.details, head, final);
  }

  /** A whole entry once the cursor's test has used up its markers: all of
      its output goes to the next failed test. */
  lemma EntryMoves(p: Profile, s: State, e: Entry)
    requires Reading(s) && WellFormedEntry(e)
    requires s.failedTests[s.currFailedTestIndex].totalFails <= 0
    requires s.currFailedTestIndex + 1 < |s.failedTests|
    ensures RunFrom(p, s, EntryLines(e)) == Ok(Receive(MoveOn(s), EntryTexts(e), 1))
  {
    var head := Receive(MoveOn(s), [TrimSpace(e.head)], 1);
    var final := Receive(MoveOn(s), EntryTexts(e), 1);
    StarMoves(p, s, e.head);
    DetailsAppend(p, head, e.details);
    assert Receive(head, DetailTexts(e.details), 0) == final by {
      ReceiveTwice(MoveOn(s), [TrimSpace(e.head)], 1, DetailTexts(e.details), 0);
    }
    Chain(p, s, [e.head], e.details, head, final);
  }

  /** A run of entries no longer than the cursor's remaining countdown all
      go to the cursor's test, in order; the countdown drops by one per
      entry and the cursor stays. */
  lemma {:induction false} OneTestBlock(p: Profile, s: State, entries: seq<Entry>)
    requires Reading(s) && WellFormedBlock(entries)
    requires |entries| <= s.failedTests[s.currFailedTestIndex].totalFails
    ensures RunFrom(p, s, BlockLines(entries)) == Ok(Receive(s, BlockTexts(entries), |entries|))
    decreases |entries|
  {
    if entries == [] {
      ReceiveNothing(s);
    } else {
      var mid := Receive(s, EntryTexts(entries[0]), 1);
      ReceiveCountsDown(s, EntryTexts(entries[0]), 1);
      ReceiveEntryThenRest(s, entries);
      EntryStays(p, s, entries[0]);
      OneTestBlock(p, mid, entries[1..]);
      ConsRun(p, s, entries, mid, Receive(s, BlockTexts(entries), |entries|));
    }
  }

  /** Receiving uses `n` markers of the cursor's test and no others. */
  lemma ReceiveCountsDown(s: State, texts: seq<string>, n: int)
    requires Reading(s)
    ensures var r := Receive(s, texts, n);
            && |r.failedTests| == |s.failedTests|
            && forall k :: 0 <= k < |s.failedTests| ==>
                 r.failedTests[k].totalFails == s.failedTests[k].totalFails - (if k == s.currFailedTestIndex then n else 0)
  {
  }

  /** The state after an entry, then the entries after it, is the state
      after all of them. */
  lemma ReceiveEntryThenRest(s: State, entries: seq<Entry>)
    requires Reading(s) && entries != []
    ensures Receive(Receive(s, EntryTexts(entries[0]), 1), BlockTexts(entries[1..]), |entries[1..]|)
            == Receive(s, BlockTexts(entries), |entries|)
  {
    BlockTextsCons(entries);
    ReceiveSplit(s, EntryTexts(entries[0]), BlockTexts(entries[1..]), BlockTexts(entries), |entries[1..]|, |entries|);
  }

  lemma ReceiveSplit(s: State, a: seq<string>, b: seq<string>, c: seq<string>, m: int, n: int)
    requires Reading(s) && c == a + b && 1 + m == n
    ensures Receive(Receive(s, a, 1), b, m) == Receive(s, c, n)
  {
    ReceiveTwice(s, a, 1, b, m);
  }

  lemma BlockTextsCons(entries: seq<Entry>)
    requires entries != []
    ensures BlockTexts(entries) == EntryTexts(entries[0]) + BlockTexts(entries[1..])
  {
  }

  /** Once the cursor's test has used up its failure markers, the next run
      of entries, as long as the next failed test has markers for, goes to
      that test: the cursor moves on at the first `*` line and stays. */
  lemma NextTestBlock(p: Profile, s: State, entries: seq<Entry>)
    requires Reading(s) && WellFormedBlock(entries)
    requires s.failedTests[s.currFailedTestIndex].totalFails <= 0
    requires s.currFailedTestIndex + 1 < |s.failedTests|
    requires 1 <= |entries| <= s.failedTests[s.currFailedTestIndex + 1].totalFails
    ensures RunFrom(p, s, BlockLines(entries)) == Ok(Receive(MoveOn(s), BlockTexts(entries), |entries|))
  {
    var moved := MoveOn(s);
    var mid := Receive(moved, EntryTexts(entries[0]), 1);
    ReceiveCountsDown(moved, EntryTexts(entries[0]), 1);
    ReceiveEntryThenRest(moved, entries);
    EntryMoves(p, s, entries[0]);
    OneTestBlock(p, mid, entries[1..]);
    ConsRun(p, s, entries, mid, Receive(moved, BlockTexts(entries), |entries|));
  }

  /** From the `Failures:` line on, a block no longer than the first
      failed test's countdown goes to that test entirely, in order: a FAIL
      header with N failure markers keeps the N entries that follow and all
      their detail lines. Nothing but that test's output and countdown
      changes, and the cursor stays on it. */
  lemma FirstTestBlock(p: Profile, s: State, failures: string, entries: seq<Entry>)
    requires Bounded(s) && s.sawTest && |s.failedTests| >= 1
    requires IsFailuresLine(failures) && WellFormedBlock(entries)
    requires |entries| <= s.failedTests[0].totalFails
    ensures var started := s.(readingFailures := true, currFailedTestIndex := 0);
            RunFrom(p, s, [failures] + BlockLines(entries)) == Ok(Receive(started, BlockTexts(entries), |entries|))
  {
    var started := s.(readingFailures := true, currFailedTestIndex := 0);
    assert RunFrom(p, s, [failures]) == Ok(started) by {
      assert [failures][..0] == [];
      FailuresLineStartsReading(p, s, failures);
    }
    OneTestBlock(p, started, entries);
    Chain(p, s, [failures], BlockLines(entries), started, Receive(started, BlockTexts(entries), |entries|));
  }

  /** Once the first failed test has received as many entries as it has
      markers, the cursor is ready to move on to the second. */
  lemma FirstBlockDone(s: State, texts: seq<string>, n: int)
    requires Bounded(s) && s.sawTest && |s.failedTests| >= 2 && n == s.failedTests[0].totalFails
    ensures var started := s.(readingFailures := true, currFailedTestIndex := 0);
            Reading(started) &&
            var r := Receive(started, texts, n);
            && r.failedTests[r.currFailedTestIndex].totalFails <= 0
            && r.currFailedTestIndex + 1 < |r.failedTests|
            && r.failedTests[r.currFailedTestIndex + 1].totalFails == s.failedTests[1].totalFails
  {
  }

  /** The run of a Failures block after two FAIL headers, as states: the
      first test receives the first run of entries, then the cursor moves
      on and the second test receives the second run. */
  lemma TwoTestRun(p: Profile, s: State, failures: string, first: seq<Entry>, second: seq<Entry>)
    requires Bounded(s) && s.sawTest && |s.failedTests| >= 2
    requires IsFailuresLine(failures) && WellFormedBlock(first) && WellFormedBlock(second)
    requires |first| == s.failedTests[0].totalFails
    requires 1 <= |second| <= s.failedTests[1].totalFails
    ensures var started := s.(readingFailures := true, currFailedTestIndex := 0);
            var firstDone := Receive(started, BlockTexts(first), |first|);
            RunFrom(p, s, [failures] + BlockLines(first) + BlockLines(second))
            == Ok(Receive(MoveOn(firstDone), BlockTexts(second), |second|))
  {
    var started := s.(readingFailures := true, currFailedTestIndex := 0);
    var firstDone := Receive(started, BlockTexts(first), |first|);
    FirstBlockDone(s, BlockTexts(first), |first|);
    FirstTestBlock(p, s, failures, first);
    NextTestBlock(p, firstDone, second);
    Chain(p, s, [failures] + BlockLines(first), BlockLines(second), firstDone,
          Receive(MoveOn(firstDone), BlockTexts(second), |second|));
  }

  /** What receiving does to the tests: only the cursor's test changes. */
  lemma ReceiveChangesOneTest(s: State, texts: seq<string>, n: int)
    requires Reading(s)
    ensures var r := Receive(s, texts, n);
            var t := s.failedTests[s.currFailedTestIndex].test;
            && |r.tests| == |s.tests| && r.packages == s.packages
            && r.tests[t] == s.tests[t].(output := s.tests[t].output + texts)
            && forall i :: 0 <= i < |s.tests| && i != t ==> r.tests[i] == s.tests[i]
  {
  }

  /** Two receives with a move between them: the first cursor's test gets
      `a`, the second's gets `b`, and no other test changes. */
  lemma ReceiveMoveReceive(s: State, a: seq<string>, n: int, b: seq<string>, m: int)
    requires Reading(s) && s.currFailedTestIndex == 0 && |s.failedTests| >= 2
    requires s.failedTests[0].test != s.failedTests[1].test
    ensures var r := Receive(MoveOn(Receive(s, a, n)), b, m);
            var t0 := s.failedTests[0].test;
            var t1 := s.failedTests[1].test;
            && |r.tests| == |s.tests| && r.packages == s.packages
            && r.currFailedTestIndex == 1 && r.readingFailures
            && r.tests[t0] == s.tests[t0].(output := s.tests[t0].output + a)
            && r.tests[t1] == s.tests[t1].(output := s.tests[t1].output + b)
            && forall i :: 0 <= i < |s.tests| && i != t0 && i != t1 ==> r.tests[i] == s.tests[i]
  {
    var firstDone := Receive(s, a, n);
    var moved := MoveOn(firstDone);
    ReceiveChangesOneTest(s, a, n);
    ReceiveChangesOneTest(moved, b, m);
    assert moved.tests == firstDone.tests && moved.failedTests[1].test == s.failedTests[1].test;
  }

  /** The tests of two cursors come in header order. */
  lemma CursorsInOrder(s: State)
    requires Inv(s) && |s.failedTests| >= 2
    ensures s.failedTests[0].test < s.failedTests[1].test < |s.tests|
  {
    assert Targets(s.failedTests)[0] == s.failedTests[0].test;
    assert Targets(s.failedTests)[1] == s.failedTests[1].test;
  }

  /** A Failures block after two FAIL headers, the first with as many
      failure markers as it has entries and the second with at least as
      many as its own: the first test receives the first run of entries
      and the second test the second, each in order, and no other test
      changes. This is how the sample report shares its three failures
      between "Then something broke here" and "And here not cool bro". */
  lemma TwoTestBlocks(p: Profile, s: State, failures: string, first: seq<Entry>, second: seq<Entry>)
    requires Inv(s) && s.sawTest && |s.failedTests| >= 2
    requires IsFailuresLine(failures) && WellFormedBlock(first) && WellFormedBlock(second)
    requires |first| == s.failedTests[0].totalFails
    requires 1 <= |second| <= s.failedTests[1].totalFails
    ensures var r := RunFrom(p, s, [failures] + BlockLines(first) + BlockLines(second));
            var t0 := s.failedTests[0].test;
            var t1 := s.failedTests[1].test;
            && r.Ok? && t0 < t1 < |s.tests| == |r.value.tests|
            && r.value.tests[t0] == s.tests[t0].(output := s.tests[t0].output + BlockTexts(first))
            && r.value.tests[t1] == s.tests[t1].(output := s.tests[t1].output + BlockTexts(second))
            && (forall i :: 0 <= i < |s.tests| && i != t0 && i != t1 ==> r.value.tests[i] == s.tests[i])
            && r.value.packages == s.packages && r.value.currFailedTestIndex == 1 && r.value.readingFailures
  {
    var started := s.(readingFailures := true, currFailedTestIndex := 0);
    CursorsInOrder(s);
    TwoTestRun(p, s, failures, first, second);
    ReceiveMoveReceive(started, BlockTexts(first), |first|, BlockTexts(second), |second|);
  }
}
