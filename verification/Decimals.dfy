/** Python decimals: their fixed-point text, the default 28-digit context, and the
    settlement arithmetic of the service, which stays exact inside that context. */
module Decimals {
  import opened Wrappers
  import opened Text

  /** The number `coef * 10^exp`. */
  datatype Decimal = Decimal(coef: int, exp: int)

  function Pow10(k: nat): (p: nat)
    ensures p > 0
  {
    if k == 0 then 1 else 10 * Pow10(k - 1)
  }

  lemma {:induction false} Pow10Sum(a: nat, b: nat)
    ensures Pow10(a + b) == Pow10(a) * Pow10(b)
  {
    if a > 0 {
      Pow10Sum(a - 1, b);
      assert Pow10(a + b) == 10 * Pow10(a - 1 + b);
    }
  }

  function Abs(n: int): nat { if n < 0 then -n else n }

  // ------------------------------------------------------- values and columns

  /** A whole number of millionths, as every decimal the API accepts: trailing zeros do
      not count as places. */
  predicate SixPlaces(d: Decimal) { d.exp >= -6 || d.coef % Pow10(-6 - d.exp) == 0 }

  /** The value in millionths, the unit of a `Numeric(18, 6)` column. */
  function Micro(d: Decimal): int
    requires SixPlaces(d)
  {
    if d.exp >= -6 then d.coef * Pow10(6 + d.exp) else d.coef / Pow10(-6 - d.exp)
  }

  /** What the API schema accepts: non-negative, at most 18 digits in all. */
  predicate Numeric18(d: Decimal) { SixPlaces(d) && 0 <= Micro(d) && FitsColumn(Micro(d)) }

  predicate FitsColumn(micro: int) { Abs(micro) < Pow10(18) }

  /** A `Numeric(18, 6)` column as it is read back. */
  function FromColumn(micro: int): Decimal { Decimal(micro, -6) }

  /** Two decimals denote one number. */
  predicate SameNumber(a: Decimal, b: Decimal) {
    var e := if a.exp <= b.exp then a.exp else b.exp;
    a.coef * Pow10(a.exp - e) == b.coef * Pow10(b.exp - e)
  }

  /** A column gives back the number that was stored. */
  lemma ColumnKeepsNumber(d: Decimal)
    requires SixPlaces(d)
    ensures SameNumber(FromColumn(Micro(d)), d)
  {
    if d.exp < -6 { DividedBack(d.coef, Pow10(-6 - d.exp)); }
  }

  lemma DividedBack(c: int, m: nat)
    requires m > 0 && c % m == 0
    ensures c / m * m == c
  {
  }

  // -------------------------------------------------------- fixed-point text

  /** `format(d, "f")` */
  function FixedText(d: Decimal): string {
    (if d.coef < 0 then "-" else "") + FixedDigits(Abs(d.coef), d.exp)
  }

  function FixedDigits(c: nat, exp: int): string {
    if exp >= 0 then NatText(c * Pow10(exp))
    else
      var s := Padded(c, -exp + 1);
      s[..|s| + exp] + "." + s[|s| + exp..]
  }

  function Padded(c: nat, width: nat): (s: string)
    ensures |s| >= width && AllDigits(s)
  {
    var s := NatText(c);
    if |s| >= width then s else Zeros(width - |s|) + s
  }

  /** `Decimal(text)` for plain fixed-point text. */
  function ParseDecimal(t: string): Option<Decimal> {
    if t == "" then None
    else if t[0] == '-' then
      match ParseUnsigned(t[1..])
      case Some(d) => Some(Decimal(0 - d.coef, d.exp))
      case None => None
    else ParseUnsigned(t)
  }

  function ParseUnsigned(t: string): Option<Decimal> {
    var k := DigitRun(t);
    if k == 0 then None
    else if k == |t| then
      assert t[..k] == t;
      Some(Decimal(NatValue(t), 0))
    else if t[k] == '.' && k + 1 < |t| && AllDigits(t[k + 1..]) then
      Some(Decimal(NatValue(t[..k] + t[k + 1..]), k + 1 - |t|))
    else None
  }

  /** The form a decimal has after printing and parsing: same value, no positive
      exponent. */
  function Plain(d: Decimal): Decimal {
    if d.exp > 0 then Decimal(d.coef * Pow10(d.exp), 0) else d
  }

  lemma FixedRoundTrip(d: Decimal)
    ensures ParseDecimal(FixedText(d)) == Some(Plain(d))
  {
    UnsignedRoundTrip(Abs(d.coef), d.exp);
    var body := FixedDigits(Abs(d.coef), d.exp);
    if d.coef < 0 {
      assert FixedText(d)[1..] == body;
      if d.exp > 0 { assert d.coef * Pow10(d.exp) == -(Abs(d.coef) * Pow10(d.exp)); }
    } else {
      assert FixedText(d) == body;
    }
  }

  lemma UnsignedRoundTrip(c: nat, exp: int)
    ensures FixedDigits(c, exp) != "" && IsDigit(FixedDigits(c, exp)[0])
    ensures ParseUnsigned(FixedDigits(c, exp)) == Some(Plain(Decimal(c, exp)))
  {
    if exp >= 0 {
      WholeRoundTrip(c * Pow10(exp));
      hide ParseUnsigned, Pow10;
    } else {
      hide ParseUnsigned;
      var s := Padded(c, -exp + 1);
      PaddedValue(c, -exp + 1);
      hide Padded, Pow10, NatText;
      PointRoundTrip(s, |s| + exp);
    }
  }

  /** Digits without a point. */
  lemma WholeRoundTrip(n: nat)
    ensures ParseUnsigned(NatText(n)) == Some(Decimal(n, 0))
  {
    hide NatValue, DigitRun;
    NatRoundTrip(n);
    DigitRunOf(NatText(n), "");
    assert NatText(n) + "" == NatText(n);
    hide NatText;
  }

  /** Digits with a point after the first k of them. */
  lemma PointRoundTrip(s: string, k: nat)
    requires 0 < k < |s| && AllDigits(s)
    ensures ParseUnsigned(s[..k] + "." + s[k..]) == Some(Decimal(NatValue(s), k - |s|))
    ensures IsDigit((s[..k] + "." + s[k..])[0])
  {
    hide NatValue, ParseUnsigned;
    var whole, frac := s[..k], s[k..];
    assert whole + frac == s;
    assert (whole + "." + frac)[0] == s[0];
    ParsePoint(whole, frac);
  }

  lemma ParsePoint(whole: string, frac: string)
    requires AllDigits(whole) && AllDigits(frac) && AllDigits(whole + frac) && whole != "" && frac != ""
    ensures ParseUnsigned(whole + "." + frac) == Some(Decimal(NatValue(whole + frac), 0 - |frac|))
  {
    hide NatValue, DigitRun, AllDigits;
    var t, k := whole + "." + frac, |whole|;
    DigitRunOf(whole, "." + frac);
    assert whole + ("." + frac) == t;
    assert t[..k] == whole;
    assert t[k + 1..] == frac;
    assert t[k] == '.';
  }

  lemma PaddedValue(c: nat, width: nat)
    ensures NatValue(Padded(c, width)) == c
  {
    NatRoundTrip(c);
    if |NatText(c)| < width { NatValueSplit(Zeros(width - |NatText(c)|), NatText(c)); }
  }

  /** Printing keeps the value: millionths are the same before and after. */
  lemma PlainKeepsValue(d: Decimal)
    requires SixPlaces(d)
    ensures SixPlaces(Plain(d)) && Micro(Plain(d)) == Micro(d)
  {
    if d.exp > 0 {
      Pow10Sum(d.exp, 6);
      assert d.coef * Pow10(d.exp) * Pow10(6) == d.coef * (Pow10(d.exp) * Pow10(6));
    }
  }

  // ------------------------------------------------- the 28-digit context

  const PRECISION: nat := 28

  function Digits(c: nat): (k: nat)
    ensures c > 0 ==> k > 0
  {
    if c == 0 then 0 else 1 + Digits(c / 10)
  }

  lemma {:induction false} DigitsBounds(c: nat)
    ensures c < Pow10(Digits(c))
    ensures c > 0 ==> Pow10(Digits(c) - 1) <= c
  {
    if c > 0 { DigitsBounds(c / 10); }
  }

  lemma {:induction false} Pow10Monotone(a: nat, b: nat)
    requires a <= b
    ensures Pow10(a) <= Pow10(b)
  {
    Pow10Sum(a, b - a);
    assert Pow10(b) >= Pow10(a) * 1;
  }

  /** Division by `m`, ties to even. */
  function HalfEven(c: nat, m: nat): (q: nat)
    requires m > 0
    ensures c / m <= q <= c / m + 1
  {
    var q, r := c / m, c % m;
    if 2 * r > m || (2 * r == m && q % 2 == 1) then q + 1 else q
  }

  /** Division by `m`, ties away from zero. */
  function HalfUp(c: nat, m: nat): (q: nat)
    requires m > 0
    ensures -(m as int) <= 2 * (c - q * m) < m as int
  {
    var q, r := c / m, c % m;
    assert c == q * m + r;
    if 2 * r >= m then
      assert (q + 1) * m == q * m + m;
      q + 1
    else q
  }

  /** Rounding of a result to the context precision, ties to even. */
  function Fix(d: Decimal): (r: Decimal)
    requires d.coef >= 0
    ensures r.coef >= 0
  {
    if Digits(d.coef) <= PRECISION then d
    else
      var k := Digits(d.coef) - PRECISION;
      var q := HalfEven(d.coef, Pow10(k));
      if Digits(q) <= PRECISION then Decimal(q, d.exp + k)
      else Decimal(q / 10, d.exp + k + 1)
  }

  /** `a + b` in the default context, for non-negative operands. */
  function Add(a: Decimal, b: Decimal): (r: Decimal)
    requires a.coef >= 0 && b.coef >= 0
    ensures r.coef >= 0
  {
    var e := if a.exp <= b.exp then a.exp else b.exp;
    Fix(Decimal(a.coef * Pow10(a.exp - e) + b.coef * Pow10(b.exp - e), e))
  }

  /** `a * b` in the default context, for non-negative operands. */
  function Mul(a: Decimal, b: Decimal): (r: Decimal)
    requires a.coef >= 0 && b.coef >= 0
    ensures r.coef >= 0
  {
    Fix(Decimal(a.coef * b.coef, a.exp + b.exp))
  }

  datatype Rounding = TiesEven | TiesUp

  /** `d.quantize(Decimal("0.000001"), rounding)` in millionths; `None` is the
      `InvalidOperation` raised when the result needs more than 28 digits. */
  function Quantize(d: Decimal, rounding: Rounding): Option<nat>
    requires d.coef >= 0
  {
    var q :=
      if d.exp >= -6 then d.coef * Pow10(d.exp + 6)
      else if rounding.TiesEven? then HalfEven(d.coef, Pow10(-6 - d.exp))
      else HalfUp(d.coef, Pow10(-6 - d.exp));
    if Digits(q) <= PRECISION then Some(q) else None
  }

  /** `sum(energies, Decimal("0"))`, left to right from `acc`. */
  function SumFrom(acc: Decimal, energies: seq<nat>): (d: Decimal)
    requires acc.coef >= 0
    ensures d.coef >= 0
    decreases |energies|
  {
    if energies == [] then acc
    else
      var next := Add(acc, FromColumn(energies[0]));
      SumFrom(next, energies[1..])
  }

  datatype Bill = Bill(delivered: nat, amount: nat)

  /** Delivered energy and amount in millionths, or `None` when Python raises
      `InvalidOperation` or a value does not fit its `Numeric(18, 6)` column. */
  function Settle(energies: seq<nat>, price: nat): Option<Bill> {
    hide Quantize, Mul, SumFrom, Pow10;
    match Quantize(SumFrom(Decimal(0, 0), energies), TiesEven)
    case None => None
    case Some(delivered) =>
      match Quantize(Mul(FromColumn(delivered), FromColumn(price)), TiesUp)
      case None => None
      case Some(amount) =>
        if FitsColumn(delivered) && FitsColumn(amount) then Some(Bill(delivered, amount)) else None
  }

  // -------------------------------------------------------------- exactness

  function Total(energies: seq<nat>): nat {
    if energies == [] then 0 else energies[0] + Total(energies[1..])
  }

  lemma DigitsWithin(c: nat, k: nat)
    ensures Digits(c) <= k <==> c < Pow10(k)
  {
    DigitsBounds(c);
    if Digits(c) <= k {
      Pow10Monotone(Digits(c), k);
    } else {
      Pow10Monotone(k, Digits(c) - 1);
    }
  }

  /** A result that needs rounding keeps at least 28 digits, so it does not become
      small again. */
  lemma FixLarge(d: Decimal)
    requires d.coef >= Pow10(PRECISION)
    ensures Fix(d).exp > d.exp
    ensures Fix(d).coef >= 0
    ensures Fix(d).coef * Pow10(Fix(d).exp - d.exp) >= Pow10(PRECISION)
  {
    hide Digits, HalfEven, Pow10;
    FixQuotient(d.coef);
    var k := Digits(d.coef) - PRECISION;
    var q := HalfEven(d.coef, Pow10(k));
    DigitsWithin(q, PRECISION);
    assert Fix(d) == if Digits(q) <= PRECISION then Decimal(q, d.exp + k) else Decimal(q / 10, d.exp + k + 1);
    hide Fix;
    Shifted(q, k);
    var r := Fix(d);
    if q < Pow10(PRECISION) { assert r == Decimal(q, d.exp + k); } else { assert r == Decimal(q / 10, d.exp + k + 1); }
  }

  lemma FixQuotient(c: nat)
    requires c >= Pow10(PRECISION)
    ensures Digits(c) > PRECISION && HalfEven(c, Pow10(Digits(c) - PRECISION)) >= Pow10(PRECISION - 1)
  {
    hide HalfEven, Digits, Pow10;
    DigitsWithin(c, PRECISION);
    DigitsBounds(c);
    var k := Digits(c) - PRECISION;
    Pow10Sum(PRECISION - 1, k);
    QuotientAtLeast(c, Pow10(k), Pow10(PRECISION - 1));
  }

  lemma Shifted(q: nat, k: nat)
    requires k > 0 && q >= Pow10(PRECISION - 1)
    ensures q * Pow10(k) >= Pow10(PRECISION)
    ensures q >= Pow10(PRECISION) ==> q / 10 * Pow10(k + 1) >= Pow10(PRECISION)
  {
    Pow10Monotone(1, k);
    Pow10Monotone(1, k + 1);
    var m := Pow10(PRECISION - 1);
    assert Pow10(PRECISION) == m * 10;
    assert Pow10(1) == 10;
    hide Pow10;
    ProductAtLeast(q, m, Pow10(k), 10);
    if q >= Pow10(PRECISION) { ProductAtLeast(q / 10, m, Pow10(k + 1), 10); }
  }

  lemma QuotientAtLeast(c: nat, m: nat, q: nat)
    requires m > 0 && c >= q * m
    ensures c / m >= q
  {
    var k := c / m;
    assert c == k * m + c % m;
    assert c < (k + 1) * m;
    if q >= k + 1 { ProductAtLeast(q, k + 1, m, m); }
  }

  lemma ProductAtLeast(a: nat, a': nat, b: nat, b': nat)
    requires a >= a' && b >= b'
    ensures a * b >= a' * b'
  {
    assert a * b >= a' * b >= a' * b';
  }

  /** Value in millionths of an accumulator whose exponent is at least -6. */
  function Micros(d: Decimal): int
    requires d.exp >= -6
  {
    d.coef * Pow10(d.exp + 6)
  }

  lemma AddColumn(acc: Decimal, x: nat)
    requires acc.coef >= 0 && acc.exp >= -6
    ensures Add(acc, FromColumn(x)) == Fix(Decimal(Micros(acc) + x, -6))
  {
    hide Fix;
    assert x * Pow10(0) == x;
  }

  lemma FixColumn(c: nat)
    ensures var d := Fix(Decimal(c, -6));
            && d.coef >= 0 && d.exp >= -6
            && (c < Pow10(PRECISION) ==> Micros(d) == c)
            && (c >= Pow10(PRECISION) ==> Micros(d) >= Pow10(PRECISION))
  {
    DigitsWithin(c, PRECISION);
    if c >= Pow10(PRECISION) {
      FixLarge(Decimal(c, -6));
    } else {
      assert c * Pow10(0) == c;
    }
  }

  /** The running sum is exact below 10^28 millionths, and once it passes that bound
      no later rounding brings it back. */
  lemma {:induction false} SumLaw(acc: Decimal, energies: seq<nat>)
    requires acc.coef >= 0 && acc.exp >= -6
    ensures
      var r := SumFrom(acc, energies);
      var exact := Micros(acc) + Total(energies);
      && r.exp >= -6
      && (exact < Pow10(PRECISION) ==> Micros(r) == exact)
      && (exact >= Pow10(PRECISION) ==> Micros(r) >= Pow10(PRECISION))
    decreases |energies|
  {
    hide Fix, Micros, Pow10;
    if energies != [] {
      MicrosNat(acc);
      AddColumn(acc, energies[0]);
      FixColumn(Micros(acc) + energies[0]);
      SumLaw(Add(acc, FromColumn(energies[0])), energies[1..]);
    }
  }

  lemma MicrosNat(d: Decimal)
    requires d.coef >= 0 && d.exp >= -6
    ensures Micros(d) >= 0
  {
  }

  /** A product that had to be rounded cannot give an amount that fits its column. */
  lemma RoundedProductOverflows(c: nat)
    requires c >= Pow10(PRECISION)
    ensures var q := Quantize(Fix(Decimal(c, -12)), TiesUp); q.Some? ==> !FitsColumn(q.value)
  {
    var d := Fix(Decimal(c, -12));
    FixLarge(Decimal(c, -12));
    LargeQuantized(d);
    Pow10Monotone(18, 22);
  }

  lemma LargeQuantized(d: Decimal)
    requires d.coef >= 0 && d.exp > -12
    requires d.coef * Pow10(d.exp + 12) >= Pow10(PRECISION)
    ensures var q := Quantize(d, TiesUp); q.Some? ==> q.value >= Pow10(22)
  {
    hide Pow10, Digits, HalfUp, HalfEven;
    Pow10Sum(22, 6);
    if d.exp >= -6 {
      Pow10Sum(d.exp + 6, 6);
      Reassociate(d.coef, Pow10(d.exp + 6), Pow10(6));
      QuotientAtLeast(d.coef * Pow10(d.exp + 6) * Pow10(6), Pow10(6), Pow10(22));
      CancelFactor(d.coef * Pow10(d.exp + 6), Pow10(6));
    } else {
      var m, n := Pow10(-6 - d.exp), Pow10(d.exp + 12);
      Pow10Sum(-6 - d.exp, d.exp + 12);
      Reassociate(Pow10(22), m, n);
      QuotientAtLeast(d.coef * n, n, Pow10(22) * m);
      CancelFactor(d.coef, n);
      QuotientAtLeast(d.coef, m, Pow10(22));
      HalfUpAtLeast(d.coef, m);
    }
  }

  lemma Reassociate(a: int, b: int, c: int)
    ensures a * b * c == a * (b * c)
  {
  }

  lemma CancelFactor(a: nat, m: nat)
    requires m > 0
    ensures (a * m) / m == a
  {
    QuotientAtLeast(a * m, m, a);
    var k := (a * m) / m;
    assert a * m == k * m + (a * m) % m;
    assert (a + 1) * m == a * m + m;
    FactorLess(k, a + 1, m);
  }

  lemma FactorLess(a: nat, b: nat, m: nat)
    requires m > 0 && a * m < b * m
    ensures a < b
  {
    if a >= b { ProductAtLeast(a, b, m, m); }
  }

  lemma HalfUpAtLeast(c: nat, m: nat)
    requires m > 0
    ensures HalfUp(c, m) >= c / m
  {
  }

  /** The bill in exact arithmetic: the total energy, and its product with the price
      rounded half up to one millionth. */
  function ExactBill(energies: seq<nat>, price: nat): Bill {
    Bill(Total(energies), HalfUp(Total(energies) * price, Pow10(6)))
  }

  predicate BillFits(bill: Bill) { FitsColumn(bill.delivered) && FitsColumn(bill.amount) }

  /** The service's arithmetic in the rounding context is the exact arithmetic: a bill
      is produced if and only if the exact figures fit their columns, and then it shows
      just those. */
  lemma SettleIsExact(energies: seq<nat>, price: nat)
    ensures Settle(energies, price)
            == if BillFits(ExactBill(energies, price)) then Some(ExactBill(energies, price)) else None
  {
    hide Pow10, Digits, HalfUp, HalfEven, Fix;
    QuantizedSum(energies);
    Pow10Monotone(18, PRECISION);
    if Total(energies) < Pow10(PRECISION) { QuantizedProduct(Total(energies), price); }
  }

  lemma QuantizedSum(energies: seq<nat>)
    ensures Quantize(SumFrom(Decimal(0, 0), energies), TiesEven)
         == if Total(energies) < Pow10(PRECISION) then Some(Total(energies)) else None
  {
    hide Pow10, Digits;
    SumLaw(Decimal(0, 0), energies);
    var sum := SumFrom(Decimal(0, 0), energies);
    DigitsWithin(Micros(sum), PRECISION);
  }

  lemma QuantizedProduct(total: nat, price: nat)
    ensures
      var amount := HalfUp(total * price, Pow10(6));
      var q := Quantize(Mul(FromColumn(total), FromColumn(price)), TiesUp);
      (if q.Some? && FitsColumn(q.value) then q else None)
      == (if FitsColumn(amount) then Some(amount) else None)
  {
    hide Pow10, Digits, HalfUp, HalfEven, Fix;
    var c := total * price;
    var amount := HalfUp(c, Pow10(6));
    assert Mul(FromColumn(total), FromColumn(price)) == Fix(Decimal(c, -12));
    DigitsWithin(c, PRECISION);
    DigitsWithin(amount, PRECISION);
    Pow10Monotone(18, PRECISION);
    if c >= Pow10(PRECISION) {
      RoundedProductOverflows(c);
      Pow10Sum(22, 6);
      QuotientAtLeast(c, Pow10(6), Pow10(22));
      HalfUpAtLeast(c, Pow10(6));
      Pow10Monotone(18, 22);
    } else {
      FixSmall(c);
    }
  }

  lemma FixSmall(c: nat)
    requires c < Pow10(PRECISION)
    ensures Fix(Decimal(c, -12)) == Decimal(c, -12)
  {
    DigitsWithin(c, PRECISION);
  }

  /** The amount is off the exact product by at most half a millionth. */
  lemma AmountWithinHalfUnit(energies: seq<nat>, price: nat)
    ensures var bill := ExactBill(energies, price);
            0 - Pow10(6) <= 2 * (bill.delivered * price - bill.amount * Pow10(6)) < Pow10(6)
  {
    hide Pow10, Total;
  }

  /** Rounding half up to `m` keeps the order. */
  lemma HalfUpMonotone(c: nat, c': nat, m: nat)
    requires m > 0 && c <= c'
    ensures HalfUp(c, m) <= HalfUp(c', m)
  {
    var q, q' := HalfUp(c, m), HalfUp(c', m);
    hide HalfUp;
    NearestMonotone(c, c', m, q, q');
  }

  /** Whole quotients at most half a unit off keep the order. */
  lemma NearestMonotone(c: nat, c': nat, m: nat, q: nat, q': nat)
    requires m > 0 && c <= c'
    requires 2 * (c - q * m) >= 0 - m && 2 * (c' - q' * m) < m
    ensures q <= q'
  {
    assert (q' + 1) * m == q' * m + m;
    FactorLess(q, q' + 1, m);
  }

  lemma {:induction false} TotalMonotone(a: seq<nat>, b: seq<nat>)
    requires |a| == |b| && forall i :: 0 <= i < |a| ==> a[i] <= b[i]
    ensures Total(a) <= Total(b)
  {
    if a != [] { TotalMonotone(a[1..], b[1..]); }
  }

  /** More energy in any reading, or a higher price, never lowers a bill. */
  lemma SettleMonotone(a: seq<nat>, b: seq<nat>, price: nat, price': nat)
    requires |a| == |b| && forall i :: 0 <= i < |a| ==> a[i] <= b[i]
    requires price <= price'
    requires Settle(b, price').Some?
    ensures Settle(a, price).Some?
    ensures Settle(a, price).value.delivered <= Settle(b, price').value.delivered
    ensures Settle(a, price).value.amount <= Settle(b, price').value.amount
  {
    hide Settle, Pow10, HalfUp, Total;
    SettleIsExact(a, price);
    SettleIsExact(b, price');
    TotalMonotone(a, b);
    ProductAtLeast(Total(b), Total(a), price', price);
    HalfUpMonotone(Total(a) * price, Total(b) * price', Pow10(6));
  }
}
