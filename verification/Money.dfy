/** Fixed-point money in hundredths of a currency unit, held in a signed 64-bit integer
    (internal/domain/money.go). `int64` is a newtype, so every intermediate value computed below is
    checked to stay inside the machine range. */
module Amounts {
  const MAX_INT64: int := 0x7FFF_FFFF_FFFF_FFFF
  const MIN_INT64: int := -0x8000_0000_0000_0000

  newtype int64 = x: int | -0x8000_0000_0000_0000 <= x <= 0x7FFF_FFFF_FFFF_FFFF

  const MAX: int64 := 0x7FFF_FFFF_FFFF_FFFF
  const MIN: int64 := -0x8000_0000_0000_0000
  datatype Option<+T> = None | Some(value: T)
  datatype Result<+T, +E> = Ok(value: T) | Err(error: E)

  datatype MoneyError = InvalidCurrencyFormat | InvalidMoneyFormat | MoneyOverflow | IncompatibleCurrency

  datatype Money = Money(amount: int64, currency: string)

  // ---------- Strings ----------

  /** The code points of Go's unicode.IsSpace. */
  predicate IsSpace(c: char) {
    var n := c as int;
    9 <= n <= 13 || n == 32 || n == 0x85 || n == 0xA0 || n == 0x1680 || 0x2000 <= n <= 0x200A
    || n == 0x2028 || n == 0x2029 || n == 0x202F || n == 0x205F || n == 0x3000
  }

  function TrimLeft(s: string): string {
    if s != [] && IsSpace(s[0]) then TrimLeft(s[1..]) else s
  }

  function TrimRight(s: string): string {
    if s != [] && IsSpace(s[|s| - 1]) then TrimRight(s[..|s| - 1]) else s
  }

  function Trim(s: string): string { TrimRight(TrimLeft(s)) }

  function UpperChar(c: char): char {
    if 'a' <= c <= 'z' then c - 'a' + 'A' else c
  }

  function Upper(s: string): (u: string)
    ensures |u| == |s| && forall i :: 0 <= i < |s| ==> u[i] == UpperChar(s[i])
  {
    seq(|s|, i requires 0 <= i < |s| => UpperChar(s[i]))
  }

  function Canon(currency: string): string { Trim(Upper(currency)) }

  /** Length of the UTF-8 encoding, which is what Go's len counts. */
  function ByteLen(s: string): nat {
    if s == [] then 0
    else ByteLen(s[1..]) + var n := s[0] as int; if n < 0x80 then 1 else if n < 0x800 then 2 else if n < 0x1_0000 then 3 else 4
  }

  // ---------- Decimal numerals ----------

  predicate IsDigit(c: char) { '0' <= c <= '9' }
  predicate AllDigits(s: string) { forall i :: 0 <= i < |s| ==> IsDigit(s[i]) }

  function DigitValue(c: char): (d: nat)
    requires IsDigit(c)
    ensures d < 10
  {
    c as int - '0' as int
  }

  function DigitChar(d: nat): (c: char)
    requires d < 10
    ensures IsDigit(c) && DigitValue(c) == d
  {
    (d + '0' as int) as char
  }

  /** The value of a numeral, most significant digit first. */
  function DecValue(s: string): nat
    requires AllDigits(s)
  {
    if s == [] then 0 else 10 * DecValue(s[..|s| - 1]) + DigitValue(s[|s| - 1])
  }

  function Digits(n: nat): (s: string)
    ensures s != [] && AllDigits(s)
  {
    if n < 10 then [DigitChar(n)] else Digits(n / 10) + [DigitChar(n % 10)]
  }

  /** strconv.ParseInt on a string of decimal digits: fails exactly on overflow. */
  function ParseInt(s: string): Option<int64>
    requires AllDigits(s)
  {
    if DecValue(s) <= MAX_INT64 then Some(DecValue(s) as int64) else None
  }

  /** The pattern ^[0-9]+\.[0-9]{2}$. */
  predicate WellFormed(s: string) {
    |s| >= 4 && s[|s| - 3] == '.' && AllDigits(s[..|s| - 3]) && AllDigits(s[|s| - 2..])
  }

  /** What a well-formed decimal denotes, in hundredths, over the unbounded integers. */
  function Cents(s: string): nat
    requires WellFormed(s)
  {
    100 * DecValue(s[..|s| - 3]) + DecValue(s[|s| - 2..])
  }

  // ---------- NewMoneyFromString and String ----------

  function Parse(valStr: string, currency: string): Result<Money, MoneyError> {
    var cur := Canon(currency);
    if ByteLen(cur) != 3 then Err(InvalidCurrencyFormat)
    else
      var s := Trim(valStr);
      if !WellFormed(s) then Err(InvalidMoneyFormat)
      else
        match ParseInt(s[..|s| - 3])
        case None => Err(MoneyOverflow)
        case Some(integers) =>
          match ParseInt(s[|s| - 2..])
          case None => Err(InvalidMoneyFormat)
          case Some(decimals) =>
            if integers > MAX / 100 then Err(MoneyOverflow)
            else
              var amount := integers * 100;
              if amount > MAX - decimals then Err(MoneyOverflow)
              else Ok(Money(amount + decimals, cur))
  }

  /** %02d of a number below 100. */
  function TwoDigits(m: nat): (d: string)
    requires m < 100
    ensures |d| == 2 && AllDigits(d)
  {
    [DigitChar(m / 10), DigitChar(m % 10)]
  }

  function PrintAbs(n: nat): string {
    Digits(n / 100) + "." + TwoDigits(n % 100)
  }

  /** Negating the least int64 wraps back to itself, and Go's division truncates towards zero, so
      that one value prints with a sign in each part. */
  function Print(amount: int64): string {
    if amount == MIN then "--92233720368547758.-8"
    else if amount < 0 then "-" + PrintAbs((-amount) as int)
    else PrintAbs(amount as int)
  }

  // ---------- Guarded arithmetic ----------

  function Add(m: Money, o: Money): Result<Money, MoneyError> {
    if m.currency != o.currency then Err(IncompatibleCurrency)
    else if o.amount > 0 && m.amount > MAX - o.amount then Err(MoneyOverflow)
    else if o.amount < 0 && m.amount < MIN - o.amount then Err(MoneyOverflow)
    else Ok(Money(m.amount + o.amount, m.currency))
  }

  function Subtract(m: Money, o: Money): Result<Money, MoneyError> {
    if m.currency != o.currency then Err(IncompatibleCurrency)
    else if o.amount > 0 && m.amount < MIN + o.amount then Err(MoneyOverflow)
    else if o.amount < 0 && m.amount > MAX + o.amount then Err(MoneyOverflow)
    else Ok(Money(m.amount - o.amount, m.currency))
  }

  function Compare(m: Money, o: Money): Result<int, MoneyError> {
    if m.currency != o.currency then Err(IncompatibleCurrency)
    else Ok(if m.amount < o.amount then -1 else if m.amount > o.amount then 1 else 0)
  }

  predicate Supported(currency: string, list: seq<string>) {
    exists i :: 0 <= i < |list| && Canon(list[i]) == currency
  }

  predicate Fits(n: int) { MIN_INT64 <= n <= MAX_INT64 }

  /** Addition succeeds exactly when the true sum fits, and then gives it; never the other way round
      for a currency mismatch. */
  lemma AddExact(m: Money, o: Money)
    ensures Add(m, o).Ok? <==> m.currency == o.currency && Fits(m.amount as int + o.amount as int)
    ensures Add(m, o).Ok? ==> Add(m, o).value.amount as int == m.amount as int + o.amount as int
    ensures Add(m, o).Ok? ==> Subtract(Add(m, o).value, o) == Ok(m)
  {
    assert MAX as int == MAX_INT64 && MIN as int == MIN_INT64;
  }

  lemma SubtractExact(m: Money, o: Money)
    ensures Subtract(m, o).Ok? <==> m.currency == o.currency && Fits(m.amount as int - o.amount as int)
    ensures Subtract(m, o).Ok? ==> Subtract(m, o).value.amount as int == m.amount as int - o.amount as int
    ensures Subtract(m, o).Ok? ==> Add(Subtract(m, o).value, o) == Ok(m)
  {
    assert MAX as int == MAX_INT64 && MIN as int == MIN_INT64;
  }

  // ---------- Parsing accepts exactly the decimals that fit ----------

  lemma TwoDigitValue(s: string)
    requires AllDigits(s) && |s| == 2
    ensures DecValue(s) == 10 * DigitValue(s[0]) + DigitValue(s[1]) < 100
  {
    assert s[..1][..0] == [];
    assert DecValue(s[..1]) == 10 * DecValue(s[..1][..0]) + DigitValue(s[..1][0]);
  }

  lemma ParseAccepts(valStr: string, currency: string)
    ensures var s := Trim(valStr);
            Parse(valStr, currency) ==
            if ByteLen(Canon(currency)) != 3 then Err(InvalidCurrencyFormat)
            else if !WellFormed(s) then Err(InvalidMoneyFormat)
            else if Cents(s) > MAX_INT64 then Err(MoneyOverflow)
            else Ok(Money(Cents(s) as int64, Canon(currency)))
  {
    var s := Trim(valStr);
    if WellFormed(s) {
      var i, d := DecValue(s[..|s| - 3]), DecValue(s[|s| - 2..]);
      TwoDigitValue(s[|s| - 2..]);
      assert MAX as int == MAX_INT64 && (MAX / 100) as int == MAX_INT64 / 100;
    }
  }

  // ---------- Round trips ----------

  lemma {:induction false} DigitsValue(n: nat)
    ensures DecValue(Digits(n)) == n
  {
    var s := Digits(n);
    if n < 10 {
      assert s[..0] == [];
    } else {
      DigitsValue(n / 10);
      assert s[..|s| - 1] == Digits(n / 10);
    }
  }

  lemma TwoDigitsValue(m: nat)
    requires m < 100
    ensures DecValue(TwoDigits(m)) == m
  {
    hide DecValue;
    TwoDigitValue(TwoDigits(m));
  }

  lemma PrintAbsWellFormed(n: nat)
    ensures WellFormed(PrintAbs(n)) && Cents(PrintAbs(n)) == n
    ensures Trim(PrintAbs(n)) == PrintAbs(n)
  {
    hide DecValue, Digits, TwoDigits;
    var s, i, d := PrintAbs(n), Digits(n / 100), TwoDigits(n % 100);
    assert s == i + "." + d;
    assert s[..|s| - 3] == i && s[|s| - 2..] == d;
    DigitsValue(n / 100);
    TwoDigitsValue(n % 100);
    assert s[0] == i[0] && IsDigit(s[0]) && IsDigit(s[|s| - 1]);
  }

  /** Parsing what was printed gives the amount back, for every amount a wallet can hold. */
  lemma ParsePrint(amount: int64, currency: string)
    requires amount >= 0 && ByteLen(Canon(currency)) == 3
    ensures Parse(Print(amount), currency) == Ok(Money(amount, Canon(currency)))
  {
    PrintAbsWellFormed(amount as int);
    ParseAccepts(Print(amount), currency);
  }

  /** Drops leading zeros but keeps the last digit. */
  function StripZeros(s: string): string {
    if |s| > 1 && s[0] == '0' then StripZeros(s[1..]) else s
  }

  lemma {:induction false} StripZerosSnoc(s: string, c: char)
    requires s != []
    ensures StripZeros(s) != []
    ensures StripZeros(s + [c]) == if StripZeros(s) == "0" then [c] else StripZeros(s) + [c]
  {
    var t := s + [c];
    if |s| > 1 && s[0] == '0' {
      StripZerosSnoc(s[1..], c);
      assert t[1..] == s[1..] + [c];
    } else if s == "0" {
      assert t[1..] == [c];
    }
  }

  lemma {:induction false} StripZerosValue(s: string)
    requires AllDigits(s) && s != []
    ensures Digits(DecValue(s)) == StripZeros(s)
    ensures DecValue(s) == 0 <==> StripZeros(s) == "0"
  {
    var front, c := s[..|s| - 1], s[|s| - 1];
    if front == [] {
      assert s == [c];
      assert DecValue(s) == 10 * DecValue(front) + DigitValue(c) == DigitValue(c);
    } else {
      StripZerosValue(front);
      StripZerosSnoc(front, c);
      assert s == front + [c];
      assert DecValue(s) / 10 == DecValue(front) && DecValue(s) % 10 == DigitValue(c);
      assert DigitChar(DigitValue(c)) == c;
    }
  }

  lemma TwoDigitsOf(d: string)
    requires |d| == 2 && AllDigits(d)
    ensures DecValue(d) < 100 && TwoDigits(DecValue(d)) == d
  {
    TwoDigitValue(d);
  }

  /** Printing what was parsed drops only outer space and leading zeros. */
  lemma PrintParse(valStr: string, currency: string)
    requires Parse(valStr, currency).Ok?
    ensures var s := Trim(valStr);
            WellFormed(s) && Print(Parse(valStr, currency).value.amount) == StripZeros(s[..|s| - 3]) + s[|s| - 3..]
  {
    ParseAccepts(valStr, currency);
    var s := Trim(valStr);
    var i, d := s[..|s| - 3], s[|s| - 2..];
    StripZerosValue(i);
    TwoDigitValue(d);
    var n := Cents(s);
    assert n / 100 == DecValue(i) && n % 100 == DecValue(d);
    TwoDigitsOf(d);
    assert s[|s| - 3..] == "." + d;
  }

  lemma PrintAbsInjective(m: nat, n: nat)
    ensures PrintAbs(m) == PrintAbs(n) ==> m == n
    ensures PrintAbs(m) != "" && IsDigit(PrintAbs(m)[0])
  {
    PrintAbsWellFormed(m);
    PrintAbsWellFormed(n);
  }

  /** Two amounts print alike only if they are the same amount, so the amount string of a hashed payload
      identifies the amount. */
  lemma PrintInjective(a: int64, b: int64)
    requires Print(a) == Print(b)
    ensures a == b
  {
    hide PrintAbs;
    var m: nat, n: nat := if a < 0 then -(a as int) else a as int, if b < 0 then -(b as int) else b as int;
    PrintAbsInjective(m, n);
    PrintAbsInjective(n, m);
    assert a < 0 && a > MIN ==> Print(a)[1..] == PrintAbs(m) && Print(a)[1] == PrintAbs(m)[0];
    assert b < 0 && b > MIN ==> Print(b)[1..] == PrintAbs(n) && Print(b)[1] == PrintAbs(n)[0];
  }

  // ---------- Canonical currencies ----------

  lemma {:induction false} TrimLeftFixed(s: string)
    ensures TrimLeft(s) == [] || !IsSpace(TrimLeft(s)[0])
    ensures forall c :: c in TrimLeft(s) ==> c in s
  {
    if s != [] && IsSpace(s[0]) { TrimLeftFixed(s[1..]); }
  }

  lemma {:induction false} TrimRightFixed(s: string)
    ensures TrimRight(s) == [] || !IsSpace(TrimRight(s)[|TrimRight(s)| - 1])
    ensures TrimRight(s) <= s
  {
    if s != [] && IsSpace(s[|s| - 1]) { TrimRightFixed(s[..|s| - 1]); }
  }

  /** Reading a stored currency normalises it again; that changes nothing. */
  lemma CanonIdempotent(c: string)
    ensures Canon(Canon(c)) == Canon(c)
  {
    var u := Upper(c);
    var l := TrimLeft(u);
    var t := TrimRight(l);
    TrimLeftFixed(u);
    TrimRightFixed(l);
    forall x | x in t ensures UpperChar(x) == x {
      assert x in l && x in u;
      var i :| 0 <= i < |u| && u[i] == x;
      assert x == UpperChar(c[i]);
    }
    assert Upper(t) == t;
    assert TrimLeft(t) == t && TrimRight(t) == t;
  }
}
