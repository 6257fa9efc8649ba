/** What texts of money and currency mean, digit by digit and letter by letter. */
module Decimals {
  import opened Amounts

  // ---------- Numerals ----------

  function Pow10(n: nat): nat { if n == 0 then 1 else 10 * Pow10(n - 1) }

  lemma Tens(d: int, p: int, v: int, e: int)
    ensures 10 * (d * p + v) + e == d * (10 * p) + (10 * v + e)
  {
  }

  lemma DecSnoc(s: string, c: char)
    requires AllDigits(s) && IsDigit(c)
    ensures AllDigits(s + [c]) && DecValue(s + [c]) == 10 * DecValue(s) + DigitValue(c)
  {
    assert (s + [c])[..|s|] == s;
  }

  lemma DigitlessValue()
    ensures DecValue([]) == 0
  {
  }

  /** The first digit of a numeral counts by its place. */
  lemma {:induction false} LeadingDigit(c: char, s: string)
    requires '0' <= c <= '9' && AllDigits(s)
    ensures AllDigits([c] + s) && DecValue([c] + s) == (c as int - 48) * Pow10(|s|) + DecValue(s)
  {
    hide DecValue;
    if s == [] {
      DecSnoc([], c);
      assert [] + [c] == [c] + s;
      assert DecValue([]) == 0 by { DigitlessValue(); }
    } else {
      var front, e := s[..|s| - 1], s[|s| - 1];
      LeadingDigit(c, front);
      DecSnoc([c] + front, e);
      DecSnoc(front, e);
      assert [c] + front + [e] == [c] + s && front + [e] == s;
      Tens(c as int - 48, Pow10(|front|), DecValue(front), DigitValue(e));
    }
  }

  // ---------- Outer space ----------

  predicate AllSpace(s: string) { forall i :: 0 <= i < |s| ==> IsSpace(s[i]) }
  predicate Bare(s: string) { s == "" || (!IsSpace(s[0]) && !IsSpace(s[|s| - 1])) }

  lemma {:induction false} TrimLeftCuts(s: string) returns (a: string)
    ensures s == a + TrimLeft(s) && AllSpace(a)
    ensures TrimLeft(s) == "" || !IsSpace(TrimLeft(s)[0])
  {
    a := "";
    if s != [] && IsSpace(s[0]) {
      var rest := TrimLeftCuts(s[1..]);
      a := [s[0]] + rest;
    }
  }

  lemma {:induction false} TrimRightCuts(s: string) returns (b: string)
    ensures s == TrimRight(s) + b && AllSpace(b)
    ensures TrimRight(s) == "" || !IsSpace(TrimRight(s)[|TrimRight(s)| - 1])
  {
    b := "";
    if s != [] && IsSpace(s[|s| - 1]) {
      var rest := TrimRightCuts(s[..|s| - 1]);
      b := rest + [s[|s| - 1]];
    }
  }

  /** Trimming cuts off space at both ends, and leaves none there. */
  lemma TrimCuts(s: string) returns (a: string, b: string)
    ensures s == a + Trim(s) + b && AllSpace(a) && AllSpace(b) && Bare(Trim(s))
  {
    a := TrimLeftCuts(s);
    b := TrimRightCuts(TrimLeft(s));
  }

  lemma {:induction false} TrimLeftPast(a: string, s: string)
    requires AllSpace(a)
    ensures TrimLeft(a + s) == TrimLeft(s)
  {
    if a == "" {
      assert a + s == s;
    } else {
      TrimLeftPast(a[1..], s);
      assert (a + s)[1..] == a[1..] + s && IsSpace(a[0]);
    }
  }

  lemma {:induction false} TrimRightPast(s: string, b: string)
    requires AllSpace(b)
    ensures TrimRight(s + b) == TrimRight(s)
  {
    if b == "" {
      assert s + b == s;
    } else {
      var n := |b| - 1;
      TrimRightPast(s, b[..n]);
      assert (s + b)[..|s + b| - 1] == s + b[..n] && IsSpace(b[n]);
    }
  }

  /** There is only one way to do so. */
  lemma TrimOnly(a: string, s: string, b: string)
    requires AllSpace(a) && AllSpace(b) && s != "" && Bare(s)
    ensures Trim(a + s + b) == s
  {
    assert a + s + b == a + (s + b);
    TrimLeftPast(a, s + b);
    assert TrimLeft(s + b) == s + b;
    TrimRightPast(s, b);
  }

  // ---------- Letters ----------

  /** Upper case moves the ASCII letters a to z by 32 code points, and nothing else. */
  lemma UpperLetters(s: string)
    ensures |Upper(s)| == |s|
    ensures forall i :: 0 <= i < |s| ==> Upper(s)[i] as int == s[i] as int - if 97 <= s[i] as int <= 122 then 32 else 0
  {
  }

  /** The code points that count as space: U+0009 to U+000D and the rest of Unicode's White_Space. */
  lemma SpaceCharacters(c: char)
    ensures IsSpace(c) <==>
            c as int in {9, 10, 11, 12, 13, 32, 133, 160, 5760, 8192, 8193, 8194, 8195, 8196, 8197, 8198, 8199, 8200, 8201, 8202,
                         8232, 8233, 8239, 8287, 12288}
  {
  }

  /** The bytes of a code point in UTF-8 (section 3 of RFC 3629). */
  function Bytes(c: char): seq<int> {
    var n := c as int;
    if n <= 0x7F then [n]
    else if n <= 0x7FF then [0xC0 + n / 64, 0x80 + n % 64]
    else if n <= 0xFFFF then [0xE0 + n / 4096, 0x80 + n / 64 % 64, 0x80 + n % 64]
    else [0xF0 + n / 262144, 0x80 + n / 4096 % 64, 0x80 + n / 64 % 64, 0x80 + n % 64]
  }

  function Encoded(s: string): seq<int> { if s == [] then [] else Encoded(s[..|s| - 1]) + Bytes(s[|s| - 1]) }

  lemma {:induction false} LengthSnoc(s: string, c: char)
    ensures ByteLen(s + [c]) == ByteLen(s) + |Bytes(c)|
  {
    if s == [] {
      assert s + [c] == [c] && [c][1..] == [];
    } else {
      LengthSnoc(s[1..], c);
      assert (s + [c])[1..] == s[1..] + [c] && (s + [c])[0] == s[0];
    }
  }

  /** The length that counts is that of the encoding. */
  lemma {:induction false} LengthInBytes(s: string)
    ensures ByteLen(s) == |Encoded(s)|
  {
    if s != [] {
      LengthInBytes(s[..|s| - 1]);
      LengthSnoc(s[..|s| - 1], s[|s| - 1]);
      assert s[..|s| - 1] + [s[|s| - 1]] == s;
    }
  }

  /** A text in ASCII has a byte for each character. */
  lemma {:induction false} AsciiLength(s: string)
    requires forall i :: 0 <= i < |s| ==> s[i] as int < 128
    ensures ByteLen(s) == |s|
  {
    if s != [] { AsciiLength(s[1..]); }
  }

  // ---------- Money as text ----------

  /** Digits, a point, and two more digits. */
  predicate Decimal(s: string, whole: string, x: char, y: char) {
    s == whole + "." + [x, y] && whole != "" && AllDigits(whole) && '0' <= x <= '9' && '0' <= y <= '9'
  }

  function Hundredths(whole: string, x: char, y: char): int
    requires AllDigits(whole)
  {
    100 * DecValue(whole) + 10 * (x as int - 48) + (y as int - 48)
  }

  lemma DecimalCents(s: string, whole: string, x: char, y: char)
    requires Decimal(s, whole, x, y)
    ensures WellFormed(s) && Cents(s) == Hundredths(whole, x, y) && Bare(s)
  {
    hide DecValue;
    assert s[..|s| - 3] == whole && s[|s| - 2..] == [x, y];
    TwoDigitValue([x, y]);
    assert s[0] == whole[0] && s[|s| - 1] == y;
  }

  /** A decimal, with space around it or not, parses to its value in hundredths if that fits in an int64. */
  lemma ParseDecimal(a: string, s: string, b: string, whole: string, x: char, y: char, currency: string)
    requires AllSpace(a) && AllSpace(b) && Decimal(s, whole, x, y) && ByteLen(Canon(currency)) == 3
    ensures Parse(a + s + b, currency) ==
            if Hundredths(whole, x, y) > 9223372036854775807 then Err(MoneyOverflow)
            else Ok(Money(Hundredths(whole, x, y) as int64, Canon(currency)))
  {
    hide DecValue, Canon;
    DecimalCents(s, whole, x, y);
    TrimOnly(a, s, b);
    ParseAccepts(a + s + b, currency);
  }

  /** And nothing else parses. */
  lemma ParseOnlyDecimals(text: string, currency: string) returns (a: string, s: string, b: string, whole: string, x: char, y: char)
    requires Parse(text, currency).Ok?
    ensures ByteLen(Canon(currency)) == 3 && text == a + s + b && AllSpace(a) && AllSpace(b) && Decimal(s, whole, x, y)
  {
    hide DecValue, Canon;
    ParseAccepts(text, currency);
    s := Trim(text);
    a, b := TrimCuts(text);
    whole, x, y := s[..|s| - 3], s[|s| - 2], s[|s| - 1];
    assert s[|s| - 2..][0] == x && s[|s| - 2..][1] == y;
    assert s == whole + "." + [x, y];
  }

  /** What is printed is a decimal of the same value, with a sign before it if the amount is negative. */
  lemma PrintDecimal(amount: int64) returns (whole: string, x: char, y: char)
    requires amount as int > -9223372036854775808
    ensures AllDigits(whole)
    ensures Hundredths(whole, x, y) == if amount < 0 then -(amount as int) else amount as int
    ensures Decimal(if amount < 0 then Print(amount)[1..] else Print(amount), whole, x, y)
    ensures amount < 0 ==> Print(amount)[0] == '-'
  {
    hide DecValue, Digits;
    var n: int := if amount < 0 then -(amount as int) else amount as int;
    PrintAbsWellFormed(n);
    var s := PrintAbs(n);
    assert Print(amount) == if amount < 0 then "-" + s else s;
    whole, x, y := s[..|s| - 3], s[|s| - 2], s[|s| - 1];
    assert s[|s| - 2..][0] == x && s[|s| - 2..][1] == y;
    assert s == whole + "." + [x, y];
    DecimalCents(s, whole, x, y);
  }

  lemma TwentyFive()
    ensures AllDigits("25") && DecValue("25") == 25
  {
    hide DecValue;
    DigitlessValue();
    DecSnoc([], '2');
    DecSnoc("2", '5');
    assert [] + ['2'] == "2" && "2" + ['5'] == "25";
  }

  lemma ExampleParts(s: string)
    requires s == "25.00"
    ensures Decimal(s, "25", '0', '0') && s[..|s| - 3] == "25" && s[|s| - 3..] == ".00" && "25" + ".00" == s
  {
    hide DecValue;
    TwentyFive();
  }

  lemma ExampleParses(currency: string)
    requires Canon(currency) == "BRL"
    ensures Parse(" 25.00", currency) == Ok(Money(2500, "BRL")) && Trim(" 25.00") == "25.00"
  {
    hide Canon, DecValue, ByteLen, Parse, Decimal, Trim;
    AsciiLength("BRL");
    TwentyFive();
    ExampleParts("25.00");
    DecimalCents("25.00", "25", '0', '0');
    assert " " + "25.00" + "" == " 25.00";
    ParseDecimal(" ", "25.00", "", "25", '0', '0', currency);
    TrimOnly(" ", "25.00", "");
  }

  lemma NoZeros(s: string)
    requires s != "" && s[0] != '0'
    ensures StripZeros(s) == s
  {
  }

  /** The amount of the repository's own example. */
  lemma Example(currency: string)
    requires Canon(currency) == "BRL"
    ensures Parse(" 25.00", currency) == Ok(Money(2500, "BRL")) && Print(2500) == "25.00"
  {
    hide Canon, DecValue, ByteLen, Parse, Print, StripZeros, Decimal, Trim, WellFormed;
    ExampleParses(currency);
    PrintParse(" 25.00", currency);
    ExampleParts("25.00");
    NoZeros("25");
  }
}
