/**
  The purchase-order code derived from the report date:
  "PO" + day (two digits) + month (two digits) + last two characters of the
  year + "SE01". The sequence part "01" is a fixed literal.
 */
module PoCode {
  import opened Decimal

  /**
    What the local-time getters of `new Date(reportDate)` give back: the day
    of the month, the month counted from 1 (after the `+ 1`) and the full
    year; or, for a string that does not parse, an Invalid Date, whose getters
    all give NaN.
   */
  datatype DateReading = Calendar(day: nat, month: nat, year: int) | InvalidDate

  /** `String(NaN)`. */
  const NaNText := "NaN"

  /** The six (or so) characters between "PO" and "SE01". */
  function DatePart(date: DateReading): string
  {
    match date
    case Calendar(d, m, y) =>
      PadStart2(NatToString(d)) + PadStart2(NatToString(m)) + SliceLast2(IntToString(y))
    case InvalidDate =>
      PadStart2(NaNText) + PadStart2(NaNText) + SliceLast2(NaNText)
  }

  /** The code written into the poCode field for a reading of the report date. */
  function PoCodeFor(date: DateReading): (code: string)
    ensures |code| >= 9
    ensures code[..2] == "PO" && code[|code| - 4..] == "SE01"
  {
    "PO" + DatePart(date) + "SE01"
  }

  /** 16 May 2025 gives PO160525SE01. */
  lemma PoCodeExample()
    ensures PoCodeFor(Calendar(16, 5, 2025)) == "PO160525SE01"
  {
    assert PadStart2(NatToString(16)) == "16" by {
      assert NatToString(1) == "1";
    }
    assert PadStart2(NatToString(5)) == "05";
    assert SliceLast2(IntToString(2025)) == "25" by {
      assert NatToString(2) == "2";
      assert NatToString(20) == "20";
      assert NatToString(202) == "202";
      assert NatToString(2025) == "2025";
    }
    assert DatePart(Calendar(16, 5, 2025)) == "160525";
  }

  /** A date string that does not parse yields the code built from three NaNs. */
  lemma InvalidDateCode()
    ensures PoCodeFor(InvalidDate) == "PONaNNaNaNSE01"
  {
  }

  /**
    With day and month below one hundred (as calendar days and months are),
    a code is twelve characters long exactly when the year prints with at
    least two characters (at least 10, or negative); a year from 0 to 9 is
    not padded and gives eleven.
   */
  lemma PoCodeLength(d: nat, m: nat, y: int)
    requires d < 100 && m < 100
    ensures |PoCodeFor(Calendar(d, m, y))| == 12 <==> y >= 10 || y < 0
    ensures 0 <= y < 10 ==> |PoCodeFor(Calendar(d, m, y))| == 11
  {
    var dd, mm, yy := PadStart2(NatToString(d)), PadStart2(NatToString(m)), SliceLast2(IntToString(y));
    PaddedLength(d);
    PaddedLength(m);
    YearPartLength(y);
    CodeLength(Calendar(d, m, y), dd, mm, yy);
  }

  lemma CodeLength(date: DateReading, dd: string, mm: string, yy: string)
    requires date.Calendar?
    requires dd == PadStart2(NatToString(date.day))
    requires mm == PadStart2(NatToString(date.month))
    requires yy == SliceLast2(IntToString(date.year))
    ensures |PoCodeFor(date)| == 6 + |dd| + |mm| + |yy|
  {
  }

  lemma PaddedLength(n: nat)
    ensures |PadStart2(NatToString(n))| >= 2
    ensures |PadStart2(NatToString(n))| == 2 <==> n < 100
  {
    NatToStringLength(n);
  }

  lemma YearPartLength(y: int)
    ensures 1 <= |SliceLast2(IntToString(y))| <= 2
    ensures |SliceLast2(IntToString(y))| == 2 <==> y >= 10 || y < 0
  {
    if y >= 0 {
      NatToStringLength(y);
    }
  }

  /**
    For day and month below one hundred and a year of at least 10, the code
    gives the date back: characters 2-3 are the day, 4-5 the month and 6-7
    the year modulo one hundred.
   */
  lemma PoCodeDecodes(d: nat, m: nat, y: int)
    requires d < 100 && m < 100 && y >= 10
    ensures var code := PoCodeFor(Calendar(d, m, y));
      && |code| == 12
      && AllDigits(code[2..4]) && DigitsValue(code[2..4]) == d
      && AllDigits(code[4..6]) && DigitsValue(code[4..6]) == m
      && AllDigits(code[6..8]) && DigitsValue(code[6..8]) == y % 100
  {
    var dd, mm, yy := PadStart2(NatToString(d)), PadStart2(NatToString(m)), SliceLast2(IntToString(y));
    Pad2Value(d);
    Pad2Value(m);
    LastTwoValue(y);
    YearPartLength(y);
    CodeParts(Calendar(d, m, y), dd, mm, yy);
  }

  lemma CodeParts(date: DateReading, dd: string, mm: string, yy: string)
    requires date.Calendar?
    requires dd == PadStart2(NatToString(date.day))
    requires mm == PadStart2(NatToString(date.month))
    requires yy == SliceLast2(IntToString(date.year))
    requires |dd| == 2 && |mm| == 2 && |yy| == 2
    ensures var code := PoCodeFor(date);
      |code| == 12 && code[2..4] == dd && code[4..6] == mm && code[6..8] == yy
  {
    assert DatePart(date) == dd + mm + yy;
    FrameSlices("PO", dd, mm, yy, "SE01");
  }

  /** Slicing a concatenation of two-character pieces gives the pieces back. */
  lemma FrameSlices(head: string, a: string, b: string, c: string, tail: string)
    requires |head| == 2 && |a| == 2 && |b| == 2 && |c| == 2 && |tail| == 4
    ensures var s := head + (a + b + c) + tail;
      |s| == 12 && s[2..4] == a && s[4..6] == b && s[6..8] == c
  {
    var s := head + (a + b + c) + tail;
    assert s[2..4] == a by { assert s[2] == a[0] && s[3] == a[1]; }
    assert s[4..6] == b by { assert s[4] == b[0] && s[5] == b[1]; }
    assert s[6..8] == c by { assert s[6] == c[0] && s[7] == c[1]; }
  }

  /**
    Two such dates get the same code exactly when they share day, month and
    year modulo one hundred.
   */
  lemma PoCodeSameExactly(d1: nat, m1: nat, y1: int, d2: nat, m2: nat, y2: int)
    requires d1 < 100 && m1 < 100 && y1 >= 10
    requires d2 < 100 && m2 < 100 && y2 >= 10
    ensures PoCodeFor(Calendar(d1, m1, y1)) == PoCodeFor(Calendar(d2, m2, y2)) <==>
      d1 == d2 && m1 == m2 && y1 % 100 == y2 % 100
  {
    var c1, c2 := PoCodeFor(Calendar(d1, m1, y1)), PoCodeFor(Calendar(d2, m2, y2));
    if c1 == c2 {
      PoCodeDecodes(d1, m1, y1);
      PoCodeDecodes(d2, m2, y2);
    }
    if d1 == d2 && m1 == m2 && y1 % 100 == y2 % 100 {
      YearPartByCentury(y1, y2);
    }
  }

  /** For years of at least 10, the two year characters depend only on the year modulo one hundred. */
  lemma YearPartByCentury(y1: int, y2: int)
    requires y1 >= 10 && y2 >= 10 && y1 % 100 == y2 % 100
    ensures SliceLast2(IntToString(y1)) == SliceLast2(IntToString(y2))
  {
    LastTwoChars(y1);
    LastTwoChars(y2);
    TwoLowDigits(y1);
    TwoLowDigits(y2);
    DigitPairUnique((y1 / 10) % 10, y1 % 10, (y2 / 10) % 10, y2 % 10);
  }

  lemma DigitPairUnique(a: nat, b: nat, c: nat, d: nat)
    requires a < 10 && b < 10 && c < 10 && d < 10
    requires a * 10 + b == c * 10 + d
    ensures a == c && b == d
  {
  }
}
