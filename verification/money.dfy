/** Money conversions of the gateway: `toPence` and the two-decimal text that
    `number_format($total, 2, '.', '')` stores as `_finance_amount`. */
module Money {
  import opened Wrappers
  import Seqs

  /** PHP's `(int)` cast of a float: truncation toward zero. */
  function Trunc(y: real): (r: int)
    ensures 0.0 <= y ==> r as real <= y < r as real + 1.0
    ensures y < 0.0 ==> r as real - 1.0 < y <= r as real
  {
    if y >= 0.0 then y.Floor else -((-y).Floor)
  }

  /** The floor of an integer is itself. */
  lemma FloorOfInt(n: int)
    ensures (n as real).Floor == n
  {
  }

  /** Truncating a real with no fractional part loses nothing. */
  lemma TruncWhole(y: real)
    ensures y.Floor as real == y ==> Trunc(y) as real == y
  {
    var k := y.Floor;
    if y < 0.0 && y.Floor as real == y {
      assert -y == (-k) as real;
      FloorOfInt(-k);
    }
  }

  /** `toPence`: an amount in major units to minor units, truncated (not rounded). */
  function ToPence(amount: real): (r: int)
    ensures 0.0 <= amount ==> r as real <= amount * 100.0 < r as real + 1.0
    ensures amount < 0.0 ==> r as real - 1.0 < amount * 100.0 <= r as real
    ensures r == 0 <==> -0.01 < amount < 0.01
  {
    Trunc(amount * 100.0)
  }

  /** An amount that is a whole number of minor units converts exactly. */
  lemma ToPenceWholeCents(c: int)
    ensures ToPence(c as real / 100.0) == c
  {
    assert (c as real / 100.0) * 100.0 == c as real;
  }

  /** An amount already in minor units is multiplied by 100 once more. */
  lemma ToPenceOfMinorUnits(n: int)
    ensures ToPence(n as real) == 100 * n
  {
    assert (n as real) * 100.0 == (100 * n) as real;
  }

  /** Truncation is symmetric about zero. */
  lemma ToPenceOdd(x: real)
    ensures ToPence(-x) == -ToPence(x)
  {
    assert (-x) * 100.0 == -(x * 100.0);
  }

  /** Amounts are truncated: 0.999 becomes 99 minor units, not 100. */
  lemma ToPenceTruncates()
    ensures ToPence(0.999) == 99
    ensures ToPence(-0.999) == -99
  {
    assert 0.999 * 100.0 == 99.9;
    assert (-0.999) * 100.0 == -99.9;
  }

  /** PHP `round($x * 100)`: to the nearest minor unit, halves away from zero. */
  function RoundCents(x: real): (r: int)
    ensures x * 100.0 - 0.5 <= r as real <= x * 100.0 + 0.5
  {
    var y := x * 100.0;
    if y >= 0.0 then (y + 0.5).Floor else -((-y + 0.5).Floor)
  }

  function Digit(d: nat): (c: char)
    requires d < 10
    ensures '0' <= c <= '9'
  {
    (d + '0' as int) as char
  }

  function DigitValue(c: char): int
  {
    c as int - '0' as int
  }

  predicate IsDigits(s: string)
  {
    forall i :: 0 <= i < |s| ==> '0' <= s[i] <= '9'
  }

  /** Decimal text of a natural number, most significant digit first. */
  function NatText(n: nat): (r: string)
    ensures |r| > 0 && IsDigits(r)
  {
    if n < 10 then [Digit(n)] else NatText(n / 10) + [Digit(n % 10)]
  }

  /** The value of a string of decimal digits. */
  function DecValue(s: string): int
  {
    if |s| == 0 then 0 else DecValue(s[..|s| - 1]) * 10 + DigitValue(s[|s| - 1])
  }

  lemma {:induction false} DecValueNatText(n: nat)
    ensures DecValue(NatText(n)) == n
  {
    if n >= 10 {
      DecValueNatText(n / 10);
      var t := NatText(n);
      assert t[..|t| - 1] == NatText(n / 10);
    }
  }

  /** `number_format($x, 2, '.', '')`: optional minus sign, integer digits,
      a point and exactly two decimals, rounded half away from zero. */
  function Fixed2(x: real): string
  {
    CentsText(RoundCents(x))
  }

  /** The `number_format` text of a whole number of minor units. */
  function CentsText(c: int): string
  {
    if c < 0 then "-" + UnsignedText(-c) else UnsignedText(c)
  }

  function UnsignedText(a: nat): (r: string)
    ensures |r| >= 4 && '0' <= r[0] <= '9'
  {
    NatText(a / 100) + "." + [Digit(a % 100 / 10), Digit(a % 10)]
  }

  /** Reads a `Fixed2` text back as a whole number of minor units. */
  function ParseFixed2(s: string): Option<int>
  {
    if |s| > 0 && s[0] == '-' then
      match ParseUnsigned(s[1..])
      case Some(v) => Some(-v)
      case None => None
    else ParseUnsigned(s)
  }

  function ParseUnsigned(body: string): Option<int>
  {
    if |body| < 4 || body[|body| - 3] != '.' then None
    else
      var whole := body[..|body| - 3];
      var frac := body[|body| - 2..];
      if !IsDigits(whole) || !IsDigits(frac) then None
      else Some(DecValue(whole) * 100 + DecValue(frac))
  }

  lemma TwoDigitValue(f: string, d: nat)
    requires d < 100
    requires f == [Digit(d / 10), Digit(d % 10)]
    ensures DecValue(f) == d
  {
    assert f[..1] == [f[0]];
    assert [f[0]][..0] == [];
    assert DecValue([f[0]]) == DigitValue(f[0]);
  }

  lemma UnsignedRoundTrip(a: nat)
    ensures ParseUnsigned(UnsignedText(a)) == Some(a)
  {
    var w := NatText(a / 100);
    var f := [Digit(a % 100 / 10), Digit(a % 10)];
    var body := UnsignedText(a);
    assert body == w + "." + f;
    assert |body| == |w| + 3;
    assert body[|body| - 3] == '.';
    assert body[..|body| - 3] == w;
    assert body[|body| - 2..] == f;
    assert IsDigits(f);
    DecValueNatText(a / 100);
    assert a % 100 / 10 == a / 10 % 10 && a % 100 % 10 == a % 10;
    TwoDigitValue(f, a % 100);
    assert DecValue(w) * 100 + DecValue(f) == a;
  }

  /** The text of a whole number of minor units reads back as that number. */
  lemma {:induction false} CentsTextRoundTrip(c: int)
    ensures ParseFixed2(CentsText(c)) == Some(c)
  {
    if c < 0 {
      UnsignedRoundTrip(-c);
      assert ("-" + UnsignedText(-c))[1..] == UnsignedText(-c);
    } else {
      UnsignedRoundTrip(c);
    }
  }

  /** The stored amount text determines the amount to the minor unit. */
  lemma ParseFixed2RoundTrip(x: real)
    ensures ParseFixed2(Fixed2(x)) == Some(RoundCents(x))
  {
    CentsTextRoundTrip(RoundCents(x));
  }

  /** A whole number of minor units prints as its own text. */
  lemma Fixed2OfCents(c: int)
    ensures Fixed2(c as real / 100.0) == CentsText(c)
  {
    RoundCentsOfCents(c);
  }

  /** Two totals print identically exactly when they round to the same minor unit. */
  lemma Fixed2SameText(x: real, y: real)
    ensures Fixed2(x) == Fixed2(y) <==> RoundCents(x) == RoundCents(y)
  {
    ParseFixed2RoundTrip(x);
    ParseFixed2RoundTrip(y);
  }

  /** Three zero-padded decimal digits: one thousands group. */
  function Group3(d: nat): (r: string)
    requires d < 1000
    ensures |r| == 3 && IsDigits(r)
  {
    [Digit(d / 100), Digit(d / 10 % 10), Digit(d % 10)]
  }

  /** Decimal text of `n` with a ',' before each group of three digits,
      counted from the right. */
  function GroupedNatText(n: nat): string
  {
    if n < 1000 then NatText(n) else GroupedNatText(n / 1000) + "," + Group3(n % 1000)
  }

  function GroupedUnsignedText(a: nat): string
  {
    GroupedNatText(a / 100) + "." + [Digit(a % 100 / 10), Digit(a % 10)]
  }

  /** The two-argument `number_format($x, 2)` text of a whole number of
      minor units: as `CentsText`, with ',' thousands separators. */
  function GroupedCentsText(c: int): string
  {
    if c < 0 then "-" + GroupedUnsignedText(-c) else GroupedUnsignedText(c)
  }

  /** `number_format($x, 2)`: PHP's default separators, '.' and ','. */
  function Fixed2Grouped(x: real): string
  {
    GroupedCentsText(RoundCents(x))
  }

  /** A whole number of minor units prints as its own grouped text. */
  lemma Fixed2GroupedOfCents(c: int)
    ensures Fixed2Grouped(c as real / 100.0) == GroupedCentsText(c)
  {
    RoundCentsOfCents(c);
  }

  /** A whole number of minor units rounds to itself. */
  lemma RoundCentsOfCents(c: int)
    ensures RoundCents(c as real / 100.0) == c
  {
    var y := (c as real / 100.0) * 100.0;
    assert y == c as real;
    if c >= 0 {
      assert (y + 0.5).Floor == c;
    } else {
      assert (-y + 0.5).Floor == -c;
    }
  }

  /** The last three digits of a number of four or more digits form one group. */
  lemma NatTextThousands(n: nat)
    requires n >= 1000
    ensures NatText(n) == NatText(n / 1000) + Group3(n % 1000)
  {
    var q, r := n / 1000, n % 1000;
    var r1, d0 := r / 10, r % 10;
    var r2, d1 := r1 / 10, r1 % 10;
    DivMod10(r, r1, d0);
    DivMod10(r1, r2, d1);
    assert r2 < 10 && r / 100 == r2 && r / 10 % 10 == d1;
    var m1, m2 := 100 * q + r1, 10 * q + r2;
    DivMod10(n, m1, d0);
    DivMod10(m1, m2, d1);
    DivMod10(m2, q, r2);
    assert NatText(n) == NatText(m1) + [Digit(d0)];
    assert NatText(m1) == NatText(m2) + [Digit(d1)];
    assert NatText(m2) == NatText(q) + [Digit(r2)];
    assert Group3(r) == [Digit(r2)] + [Digit(d1)] + [Digit(d0)];
  }

  /** Division by ten, from the decomposition it undoes. */
  lemma DivMod10(m: int, a: int, b: int)
    requires m == 10 * a + b && 0 <= b < 10
    ensures m / 10 == a && m % 10 == b
  {
  }

  /** Dropping the separators from the grouped text gives the plain digits. */
  lemma {:induction false} GroupedNatUngroups(n: nat)
    ensures Seqs.Remove(GroupedNatText(n), ',') == NatText(n)
    decreases n
  {
    if n < 1000 {
      Seqs.RemoveAbsent(NatText(n), ',');
    } else {
      GroupedNatUngroups(n / 1000);
      var g := Group3(n % 1000);
      Seqs.RemoveAppend(GroupedNatText(n / 1000) + ",", g, ',');
      Seqs.RemoveAppend(GroupedNatText(n / 1000), ",", ',');
      Seqs.RemoveAbsent(g, ',');
      NatTextThousands(n);
    }
  }

  lemma GroupedUnsignedUngroups(a: nat)
    ensures Seqs.Remove(GroupedUnsignedText(a), ',') == UnsignedText(a)
  {
    var tail := "." + [Digit(a % 100 / 10), Digit(a % 10)];
    GroupedNatUngroups(a / 100);
    Seqs.RemoveAppend(GroupedNatText(a / 100), tail, ',');
    Seqs.RemoveAbsent(tail, ',');
    assert GroupedUnsignedText(a) == GroupedNatText(a / 100) + tail;
    assert UnsignedText(a) == NatText(a / 100) + tail;
  }

  /** Dropping the thousands separators from the two-argument `number_format`
      text gives the `number_format($x, 2, '.', '')` text. */
  lemma {:induction false} GroupedCentsUngroups(c: int)
    ensures Seqs.Remove(GroupedCentsText(c), ',') == CentsText(c)
  {
    if c < 0 {
      GroupedUnsignedUngroups(-c);
      Seqs.RemoveAppend("-", GroupedUnsignedText(-c), ',');
    } else {
      GroupedUnsignedUngroups(c);
    }
  }

  /** The grouped text of an amount reads back as that amount once its
      separators are dropped. */
  lemma GroupedCentsRoundTrip(c: int)
    ensures ParseFixed2(Seqs.Remove(GroupedCentsText(c), ',')) == Some(c)
  {
    GroupedCentsUngroups(c);
    CentsTextRoundTrip(c);
  }

  /** Below one thousand major units the two formats print the same text. */
  lemma GroupedBelowThousand(c: int)
    requires -100000 < c < 100000
    ensures GroupedCentsText(c) == CentsText(c)
  {
  }

  /** `number_format(1500, 2)` is "1,500.00". */
  lemma GroupedExample()
    ensures Fixed2Grouped(1500.0) == "1,500.00"
    ensures Fixed2(1500.0) == "1500.00"
  {
    RoundCentsOfCents(150000);
    assert 150000 as real / 100.0 == 1500.0;
    assert NatText(1) == "1";
    assert NatText(15) == "15";
    assert NatText(150) == "150";
    assert NatText(1500) == "1500";
    assert Group3(500) == "500";
    assert GroupedNatText(1500) == GroupedNatText(1) + "," + Group3(500);
    assert GroupedUnsignedText(150000) == GroupedNatText(1500) + "." + "00";
    assert UnsignedText(150000) == NatText(1500) + "." + "00";
  }
}
