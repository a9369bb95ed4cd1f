/** What `parseTime` (parser.go:161-167) makes of the seconds a summary
    line captures: the dot is dropped and the digits are read as one
    integer, so three decimals give milliseconds and fewer do not. */
module ParseTimes {
  import opened Wrappers
  import opened Text
  import opened Markers
  import opened Parser

  /** Deleting a character distributes over concatenation. */
  lemma {:induction false} RemoveAllConcat(x: string, y: string, c: char)
    ensures RemoveAll(x + y, c) == RemoveAll(x, c) + RemoveAll(y, c)
    decreases |y|
  {
    if y == [] {
      assert x + y == x;
    } else {
      var init := y[..|y| - 1];
      var last := y[|y| - 1];
      assert (x + y)[..|x + y| - 1] == x + init;
      assert (x + y)[|x + y| - 1] == last;
      RemoveAllConcat(x, init, c);
      var tail := if last == c then [] else [last];
      calc {
        RemoveAll(x + y, c);
        RemoveAll(x + init, c) + tail;
        (RemoveAll(x, c) + RemoveAll(init, c)) + tail;
        { ConcatAssoc(RemoveAll(x, c), RemoveAll(init, c), tail); }
        RemoveAll(x, c) + (RemoveAll(init, c) + tail);
      }
    }
  }

  /** A string without the character loses nothing. */
  lemma {:induction false} RemoveAllAbsent(s: string, c: char)
    requires c !in s
    ensures RemoveAll(s, c) == s
    decreases |s|
  {
    if s != [] {
      var init := s[..|s| - 1];
      RemoveAllAbsent(init, c);
      assert init + [s[|s| - 1]] == s;
    }
  }

  /** The value of digits written after other digits: the first ones are
      shifted left by as many places as there are later ones. */
  lemma {:induction false} DigitsValueConcat(x: string, y: string)
    requires AllDigits(x) && AllDigits(y)
    ensures AllDigits(x + y)
    ensures DigitsValue(x + y) == DigitsValue(x) * Pow10(|y|) + DigitsValue(y)
    decreases |y|
  {
    if y == [] {
      assert x + y == x;
    } else {
      var init := y[..|y| - 1];
      assert (x + y)[..|x + y| - 1] == x + init;
      DigitsValueConcat(x, init);
      calc {
        DigitsValue(x + y);
        10 * DigitsValue(x + init) + DigitValue(y[|y| - 1]);
        10 * (DigitsValue(x) * Pow10(|init|) + DigitsValue(init)) + DigitValue(y[|y| - 1]);
        { ShiftLeft(DigitsValue(x), Pow10(|init|), DigitsValue(init), DigitValue(y[|y| - 1])); }
        DigitsValue(x) * (10 * Pow10(|init|)) + (10 * DigitsValue(init) + DigitValue(y[|y| - 1]));
        DigitsValue(x) * Pow10(|y|) + DigitsValue(y);
      }
    }
  }

  lemma ShiftLeft(a: int, p: int, b: int, d: int)
    ensures 10 * (a * p + b) + d == a * (10 * p) + (10 * b + d)
  {
  }

  lemma DigitsHaveNoDot(s: string)
    requires AllDigits(s)
    ensures '.' !in s
  {
  }

  /** Deleting the dot of `whole.frac` leaves the two digit runs joined. */
  lemma DropDot(whole: string, frac: string)
    requires AllDigits(whole) && AllDigits(frac)
    ensures RemoveAll(whole + "." + frac, '.') == whole + frac
  {
    DigitsHaveNoDot(whole);
    DigitsHaveNoDot(frac);
    RemoveAllConcat(whole + ".", frac, '.');
    RemoveAllConcat(whole, ".", '.');
    RemoveAllAbsent(whole, '.');
    RemoveAllAbsent(frac, '.');
    assert RemoveAll(".", '.') == [] by {
      assert "."[..0] == [];
    }
    assert RemoveAll(whole + ".", '.') == whole by {
      assert whole + [] == whole;
    }
  }

  /** A seconds text `whole.frac` is read as the integer written by the
      digits of `whole` followed by those of `frac`. */
  lemma ParseTimeDropsDot(whole: string, frac: string)
    requires |whole| >= 1 && |frac| >= 1 && AllDigits(whole) && AllDigits(frac)
    requires DigitsValue(whole) * Pow10(|frac|) + DigitsValue(frac) <= MaxInt
    ensures IsSecondsText(whole + "." + frac)
    ensures ParseTime(whole + "." + frac) == DigitsValue(whole) * Pow10(|frac|) + DigitsValue(frac)
  {
    var text := whole + "." + frac;
    DigitsHaveNoDot(whole);
    DigitsHaveNoDot(frac);
    assert text[|whole|] == '.';
    LeadingRunExact(text, IsDigit, |whole|);
    assert text[|whole| + 1..] == frac;
    DropDot(whole, frac);
    DigitsValueConcat(whole, frac);
    ParseTimeOfDigits(text, whole + frac);
  }

  /** A time whose dot-free text is a decimal in range is read as it. */
  lemma ParseTimeOfDigits(time: string, digits: string)
    requires RemoveAll(time, '.') == digits && digits != [] && AllDigits(digits) && DigitsValue(digits) <= MaxInt
    ensures ParseTime(time) == DigitsValue(digits)
  {
  }

  /** With three decimals, as the summary lines carry them, the seconds
      are read as milliseconds. */
  lemma ParseTimeMilliseconds(whole: string, frac: string)
    requires |whole| >= 1 && |frac| == 3 && AllDigits(whole) && AllDigits(frac)
    requires DigitsValue(whole) * 1000 + DigitsValue(frac) <= MaxInt
    ensures ParseTime(whole + "." + frac) == 1000 * DigitsValue(whole) + DigitsValue(frac)
  {
    assert Pow10(3) == 1000;
    ParseTimeDropsDot(whole, frac);
  }

  /** The times of the sample reports: `0.010` seconds is 10 and `0.100`
      seconds is 100. */
  lemma SampleTimeTen()
    ensures ParseTime("0.010") == 10
  {
    assert DigitsValue("0") == 0;
    assert DigitsValue("010") == 10 by {
      assert "010"[..2] == "01" && "01"[..1] == "0";
    }
    ParseTimeMilliseconds("0", "010");
    assert "0" + "." + "010" == "0.010";
  }

  lemma SampleTimeHundred()
    ensures ParseTime("0.100") == 100
  {
    assert DigitsValue("0") == 0;
    assert DigitsValue("100") == 100 by {
      assert "100"[..2] == "10" && "10"[..1] == "1";
    }
    ParseTimeMilliseconds("0", "100");
    assert "0" + "." + "100" == "0.100";
  }

  /** With fewer decimals the dot's position is lost: `0.1` seconds is read
      as 1, not as 100 milliseconds. */
  lemma ParseTimeIgnoresScale()
    ensures ParseTime("0.1") == 1
  {
    assert DigitsValue("1") == 1 && DigitsValue("0") == 0 by {
      assert "1"[..0] == [] && "0"[..0] == [];
    }
    assert Pow10(1) == 10;
    ParseTimeDropsDot("0", "1");
    assert "0" + "." + "1" == "0.1";
  }
}
