/** Canonical decimals and their exact rational comparison. */
module Decimals {
  import opened Graphs

  datatype Decimal = Decimal(coefficient: string, exponent: int)

  predicate IsDigit(c: char) { '0' <= c <= '9' }

  predicate AllDigits(s: string) { forall i :: 0 <= i < |s| ==> IsDigit(s[i]) }

  /** Decimal digits without a leading zero. */
  predicate Unsigned(s: string) { s != "" && s[0] != '0' && AllDigits(s) }

  /** The coefficient syntax: zero, or an optional minus sign and digits without a leading zero. */
  predicate CoefficientSyntax(s: string) {
    s == "0" || Unsigned(s) || (s != "" && s[0] == '-' && Unsigned(s[1..]))
  }

  predicate Valid(d: Decimal) {
    && CoefficientSyntax(d.coefficient) && -18 <= d.exponent <= 18
    && (d.coefficient == "0" ==> d.exponent == 0)
    && (d.coefficient != "0" ==> d.coefficient[|d.coefficient| - 1] != '0')
  }

  function ParseDigits(s: string): nat
    requires AllDigits(s)
  {
    if s == "" then 0
    else 10 * ParseDigits(s[..|s| - 1]) + (s[|s| - 1] as int - '0' as int)
  }

  function Coefficient(s: string): int
    requires CoefficientSyntax(s)
  {
    if s == "0" then 0
    else if s[0] == '-' then -(ParseDigits(s[1..]) as int)
    else ParseDigits(s)
  }

  function Pow10(n: nat): (r: nat)
    ensures 0 < r
  {
    if n == 0 then 1 else 10 * Pow10(n - 1)
  }

  datatype Ratio = Ratio(num: int, den: nat)

  function Rat(d: Decimal): (r: Ratio)
    requires CoefficientSyntax(d.coefficient)
    ensures 0 < r.den
  {
    if d.exponent >= 0 then Ratio(Coefficient(d.coefficient) * Pow10(d.exponent), 1)
    else Ratio(Coefficient(d.coefficient), Pow10(-d.exponent))
  }

  /** Sign of the difference of two rationals, by cross multiplication. */
  function Compare(a: Decimal, b: Decimal): int
    requires CoefficientSyntax(a.coefficient) && CoefficientSyntax(b.coefficient)
  {
    var x, y := Rat(a), Rat(b);
    var left, right := x.num * y.den, y.num * x.den;
    if left < right then -1 else if left > right then 1 else 0
  }

  lemma {:induction false} UnsignedPositive(s: string)
    requires Unsigned(s)
    ensures ParseDigits(s) > 0
    ensures |s| > 1 ==> ParseDigits(s) >= 10
  {
    if |s| > 1 {
      var t := s[..|s| - 1];
      assert t[0] == s[0];
      UnsignedPositive(t);
    }
  }

  lemma {:induction false} DigitsInjective(s: string, t: string)
    requires Unsigned(s) && Unsigned(t) && ParseDigits(s) == ParseDigits(t)
    ensures s == t
  {
    UnsignedPositive(s);
    UnsignedPositive(t);
    var p, q := s[..|s| - 1], t[..|t| - 1];
    assert s == p + [s[|s| - 1]] && t == q + [t[|t| - 1]];
    assert ParseDigits(p) == ParseDigits(q);
    if |s| > 1 && |t| > 1 {
      assert p[0] == s[0] && q[0] == t[0];
      DigitsInjective(p, q);
    }
  }

  lemma LastDigit(s: string)
    requires Unsigned(s) && s[|s| - 1] != '0'
    ensures ParseDigits(s) % 10 != 0
  {
    var d := s[|s| - 1] as int - '0' as int;
    assert ParseDigits(s) == 10 * ParseDigits(s[..|s| - 1]) + d;
  }

  lemma CoefficientInjective(s: string, t: string)
    requires CoefficientSyntax(s) && CoefficientSyntax(t) && Coefficient(s) == Coefficient(t)
    ensures s == t
  {
    if Unsigned(s) { UnsignedPositive(s); }
    if Unsigned(t) { UnsignedPositive(t); }
    if s[0] == '-' { UnsignedPositive(s[1..]); }
    if t[0] == '-' { UnsignedPositive(t[1..]); }
    if s[0] == '-' {
      DigitsInjective(s[1..], t[1..]);
      assert s == ['-'] + s[1..] && t == ['-'] + t[1..];
    } else if s != "0" {
      DigitsInjective(s, t);
    }
  }

  /** A valid coefficient other than zero is not a multiple of ten. */
  lemma NotMultiple(d: Decimal)
    requires Valid(d)
    ensures d.coefficient == "0" <==> Coefficient(d.coefficient) == 0
    ensures d.coefficient != "0" ==> Coefficient(d.coefficient) % 10 != 0
  {
    var s := d.coefficient;
    if s[0] == '-' {
      UnsignedPositive(s[1..]);
      assert s[1..][|s| - 2] == s[|s| - 1];
      LastDigit(s[1..]);
    } else if s != "0" {
      UnsignedPositive(s);
      LastDigit(s);
    }
  }

  lemma {:induction false} Pow10Add(m: nat, n: nat)
    ensures Pow10(m + n) == Pow10(m) * Pow10(n)
  {
    if m > 0 {
      Pow10Add(m - 1, n);
      assert Pow10(m + n) == 10 * Pow10(m - 1 + n);
    }
  }

  lemma CancelFactor(x: int, y: int, k: nat)
    requires 0 < k && x * k == y * k
    ensures x == y
  {
    assert (x - y) * k == x * k - y * k;
    assert x - y > 0 ==> (x - y) * k > 0;
    assert x - y < 0 ==> (x - y) * k < 0;
  }

  lemma Regroup(c: int, m: nat, n: nat)
    ensures c * Pow10(m + n) == (c * Pow10(m)) * Pow10(n)
  {
    Pow10Add(m, n);
    var x, y := Pow10(m), Pow10(n);
    assert c * (x * y) == (c * x) * y;
  }

  /** Equal values at exponents ea >= eb: the second coefficient is the first one scaled. */
  lemma ScaleOut(ca: int, ea: int, cb: int, eb: int, a: Decimal, b: Decimal)
    requires CoefficientSyntax(a.coefficient) && CoefficientSyntax(b.coefficient)
    requires ca == Coefficient(a.coefficient) && ea == a.exponent && cb == Coefficient(b.coefficient) && eb == b.exponent
    requires ea >= eb && Rat(a).num * Rat(b).den == Rat(b).num * Rat(a).den
    ensures ca * Pow10(ea - eb) == cb
  {
    hide CoefficientSyntax, Coefficient, Pow10;
    if eb >= 0 {
      Regroup(ca, ea - eb, eb);
      assert ca * Pow10(ea) == cb * Pow10(eb);
      CancelFactor(ca * Pow10(ea - eb), cb, Pow10(eb));
    } else if ea >= 0 {
      Regroup(ca, ea, -eb);
      assert (ca * Pow10(ea)) * Pow10(-eb) == cb * 1;
    } else {
      Regroup(ca, ea - eb, -ea);
      assert ca * Pow10(-eb) == cb * Pow10(-ea);
      CancelFactor(ca * Pow10(ea - eb), cb, Pow10(-ea));
    }
  }

  lemma TimesTen(c: int, k: nat)
    ensures (c * (10 * k)) % 10 == 0
  {
    assert c * (10 * k) == 10 * (c * k);
  }

  lemma EqualAtOrderedExponents(a: Decimal, b: Decimal)
    requires Valid(a) && Valid(b) && Compare(a, b) == 0 && a.exponent >= b.exponent
    ensures a == b
  {
    var ca, cb := Coefficient(a.coefficient), Coefficient(b.coefficient);
    ScaleOut(ca, a.exponent, cb, b.exponent, a, b);
    NotMultiple(a);
    NotMultiple(b);
    if a.exponent > b.exponent {
      TimesTen(ca, Pow10(a.exponent - b.exponent - 1));
      CancelFactor(ca, 0, Pow10(a.exponent - b.exponent));
    }
    CoefficientInjective(a.coefficient, b.coefficient);
  }

  /** Canonical decimals are unique: numerically equal exactly when identical. */
  lemma DecimalUnique(a: Decimal, b: Decimal)
    requires Valid(a) && Valid(b)
    ensures Compare(a, b) == 0 <==> a == b
  {
    if Compare(a, b) == 0 {
      if a.exponent >= b.exponent {
        EqualAtOrderedExponents(a, b);
      } else {
        EqualAtOrderedExponents(b, a);
      }
    }
  }

  /** Values as the packs compare them: a quantity, or any other payload held as a token. */
  datatype Value = Quantity(number: Decimal, unit: Id) | Payload(token: Id)

  predicate ValidValue(v: Value) { v.Quantity? ==> Valid(v.number) }

  predicate PackEqual(a: Value, b: Value)
    requires ValidValue(a) && ValidValue(b)
  {
    if a.Quantity? && b.Quantity? then a.unit == b.unit && Compare(a.number, b.number) == 0
    else a == b
  }

  /** The packs' numeric equality is identity of canonical values. */
  lemma PackEqualIsIdentity(a: Value, b: Value)
    requires ValidValue(a) && ValidValue(b)
    ensures PackEqual(a, b) <==> a == b
  {
    if a.Quantity? && b.Quantity? {
      DecimalUnique(a.number, b.number);
    }
  }

  /** The number at a common exponent: the coefficient shifted by the digits above it. */
  function Scaled(d: Decimal, to: int): int
    requires CoefficientSyntax(d.coefficient) && to <= d.exponent
  {
    Coefficient(d.coefficient) * Pow10(d.exponent - to)
  }

  lemma {:induction false} ProductGrows(x: int, y: int, k: nat)
    requires x < y && 0 < k
    ensures x * k < y * k
    decreases k
  {
    if k > 1 {
      ProductGrows(x, y, k - 1);
      assert x * k == x * (k - 1) + x && y * k == y * (k - 1) + y;
    }
  }

  lemma SignOfProduct(x: int, y: int, k: nat)
    requires 0 < k
    ensures (x < y <==> x * k < y * k) && (x == y <==> x * k == y * k)
  {
    if x < y { ProductGrows(x, y, k); }
    if y < x { ProductGrows(y, x, k); }
  }

  /** Cross products are the scaled numbers times a common positive power. */
  lemma CrossIsScaled(a: Decimal, b: Decimal, to: int) returns (k: nat)
    requires CoefficientSyntax(a.coefficient) && CoefficientSyntax(b.coefficient) && to <= a.exponent && to <= b.exponent
    requires to == a.exponent || to == b.exponent
    ensures 0 < k && Rat(a).num * Rat(b).den == Scaled(a, to) * k && Rat(b).num * Rat(a).den == Scaled(b, to) * k
  {
    var ca, cb := Coefficient(a.coefficient), Coefficient(b.coefficient);
    if 0 <= a.exponent && 0 <= b.exponent {
      k := Pow10(to);
      Pow10Add(a.exponent - to, to);
      Pow10Add(b.exponent - to, to);
      Regrouped(ca, Pow10(a.exponent - to), k);
      Regrouped(cb, Pow10(b.exponent - to), k);
    } else if a.exponent < 0 && b.exponent < 0 {
      k := Pow10(if a.exponent < b.exponent then -b.exponent else -a.exponent);
      if a.exponent < b.exponent {
        Pow10Add(b.exponent - to, -b.exponent);
        Regrouped(cb, Pow10(b.exponent - to), k);
      } else {
        Pow10Add(a.exponent - to, -a.exponent);
        Regrouped(ca, Pow10(a.exponent - to), k);
      }
    } else if a.exponent < 0 {
      k := 1;
      Pow10Add(b.exponent, -a.exponent);
      Regrouped(cb, Pow10(b.exponent), Pow10(-a.exponent));
    } else {
      k := 1;
      Pow10Add(a.exponent, -b.exponent);
      Regrouped(ca, Pow10(a.exponent), Pow10(-b.exponent));
    }
  }

  lemma Regrouped(c: int, m: nat, n: nat)
    ensures c * (m * n) == (c * m) * n
  {}

  /** Comparison has the sign of the difference of the numbers, at whatever common exponent they are written. */
  lemma CompareSign(a: Decimal, b: Decimal)
    requires CoefficientSyntax(a.coefficient) && CoefficientSyntax(b.coefficient)
    ensures var to := if a.exponent < b.exponent then a.exponent else b.exponent;
            && (Compare(a, b) < 0 <==> Scaled(a, to) < Scaled(b, to)) && (Compare(a, b) == 0 <==> Scaled(a, to) == Scaled(b, to))
            && (Compare(a, b) > 0 <==> Scaled(a, to) > Scaled(b, to))
  {
    hide Rat, Scaled;
    var to := if a.exponent < b.exponent then a.exponent else b.exponent;
    var k := CrossIsScaled(a, b, to);
    SignOfProduct(Scaled(a, to), Scaled(b, to), k);
    SignOfProduct(Scaled(b, to), Scaled(a, to), k);
  }

  /** The sign and the digits of a coefficient. */
  lemma CoefficientSign(s: string)
    requires CoefficientSyntax(s)
    ensures Coefficient(s) < 0 <==> s[0] == '-'
    ensures Coefficient(s) == 0 <==> s == "0"
  {
    if s != "0" {
      if s[0] == '-' { UnsignedPositive(s[1..]); } else { UnsignedPositive(s); }
    }
  }
}
