/**
  Integer arithmetic as the visualizer performs it.

  The source computes positions and frame numbers as `int(a * b / c)`: a true
  division whose result `int()` truncates toward zero.  Dafny's `/` is
  Euclidean, so the truncation is written out here for every sign.
 */
module PyMath {

  function Abs(a: int): (r: nat)
    ensures r == a || r == -a
  {
    if a < 0 then -a else a
  }

  function Min(a: int, b: int): (r: int)
    ensures r <= a && r <= b && (r == a || r == b)
  {
    if a < b then a else b
  }

  function Max(a: int, b: int): (r: int)
    ensures r >= a && r >= b && (r == a || r == b)
  {
    if a < b then b else a
  }

  /** Python's `int(a / b)` on integers: the quotient truncated toward zero. */
  function TruncDiv(a: int, b: int): (q: int)
    requires b != 0
    ensures a >= 0 && b > 0 ==> q == a / b
    ensures (a >= 0) == (b > 0) ==> q >= 0
    ensures (a <= 0) == (b > 0) ==> q <= 0
  {
    var m := Abs(a) / Abs(b);
    assert 0 <= m;
    if (a < 0) == (b < 0) then m else -m
  }

  /** Truncation is symmetric: negating either operand negates the quotient. */
  lemma TruncDivOdd(a: int, b: int)
    requires b != 0
    ensures TruncDiv(-a, b) == -TruncDiv(a, b)
    ensures TruncDiv(a, -b) == -TruncDiv(a, b)
  {
    AbsQuotientNeg(a, b);
  }

  /** Negating an operand leaves the quotient of the magnitudes unchanged. */
  lemma AbsQuotientNeg(a: int, b: int)
    requires b != 0
    ensures Abs(-a) / Abs(b) == Abs(a) / Abs(b) == Abs(a) / Abs(-b)
    ensures a == 0 ==> Abs(a) / Abs(b) == 0
  {
    var x, y := Abs(a), Abs(b);
    assert Abs(-a) == x && Abs(-b) == y;
    if a == 0 {
      assert x == 0;
      assert 0 / y == 0;
    }
  }

  /** The truncated quotient `q` is the one whose multiple `q * b` lies on the
      side of zero where `a` lies, no further from zero than `a`, and less than
      one divisor short of it. */
  lemma TruncDivRemainder(a: int, b: int)
    requires b != 0
    ensures var q := TruncDiv(a, b);
      && Abs(q * b) <= Abs(a) < Abs(q * b) + Abs(b)
      && (a >= 0 ==> q * b >= 0)
      && (a <= 0 ==> q * b <= 0)
  {
    var q, ab := TruncDiv(a, b), Abs(b);
    var m, r := Abs(a) / ab, Abs(a) % ab;
    assert Abs(a) == m * ab + r && 0 <= r < ab;
    assert Abs(q) == m;
    AbsMul(q, b);
    TruncDivSign(a, b);
  }

  /** The multiple `TruncDiv(a, b) * b` has the sign of `a`. */
  lemma TruncDivSign(a: int, b: int)
    requires b != 0
    ensures a >= 0 ==> TruncDiv(a, b) * b >= 0
    ensures a <= 0 ==> TruncDiv(a, b) * b <= 0
  {
    var q := TruncDiv(a, b);
    if a != 0 {
      if (a < 0) == (b < 0) {
        if b > 0 { MulNonNegative(q, b); } else { MulNonNegative(q, -b); assert q * b == -(q * (-b)); }
      } else {
        if b > 0 { MulNonNegative(-q, b); assert q * b == -((-q) * b); } else { MulNonNegative(-q, -b); assert q * b == (-q) * (-b); }
      }
    }
  }

  /** The magnitude of a product is the product of the magnitudes. */
  lemma AbsMul(x: int, y: int)
    ensures Abs(x * y) == Abs(x) * Abs(y)
  {
    if x < 0 && y < 0 { assert x * y == (-x) * (-y); MulNonNegative(-x, -y); }
    else if x < 0 { assert x * y == -((-x) * y); MulNonNegative(-x, y); }
    else if y < 0 { assert x * y == -(x * (-y)); MulNonNegative(x, -y); }
    else { MulNonNegative(x, y); }
  }

  /** Euclidean division by a positive divisor is monotone in the dividend. */
  lemma DivMonotone(a1: int, a2: int, b: int)
    requires 0 <= a1 <= a2 && 0 < b
    ensures a1 / b <= a2 / b
  {
    var q1, q2 := a1 / b, a2 / b;
    if q1 > q2 {
      MulMonotone(b, q2 + 1, q1);
      assert false;
    }
  }

  /** Multiplying by a non-negative factor keeps the order. */
  lemma MulMonotone(x: int, a: int, b: int)
    requires 0 <= x && a <= b
    ensures x * a <= x * b
  {
    var d := b - a;
    assert x * b == x * a + x * d;
    MulNonNegative(x, d);
  }

  lemma MulNonNegative(x: int, y: int)
    requires 0 <= x && 0 <= y
    ensures 0 <= x * y
  {
  }

  /** Division of an exact multiple returns the factor back. */
  lemma DivExact(k: nat, b: int)
    requires 0 < b
    ensures (k * b) / b == k
  {
    var q, r := (k * b) / b, (k * b) % b;
    assert k * b == b * q + r;
    assert b * (k - q) == r;
    if k - q >= 1 {
      MulMonotone(b, 1, k - q);
    } else if k - q <= -1 {
      MulMonotone(b, 1, q - k);
    }
  }

  /** Truncating division by a positive divisor is monotone in the dividend. */
  lemma TruncDivMonotone(a1: int, a2: int, b: int)
    requires a1 <= a2 && 0 < b
    ensures TruncDiv(a1, b) <= TruncDiv(a2, b)
  {
    if 0 <= a1 {
      DivMonotone(a1, a2, b);
    } else if a2 < 0 {
      DivMonotone(-a2, -a1, b);
    }
  }

  /** `int(k * b / b) == k` for every non-zero divisor and every sign of `k`. */
  lemma TruncDivExact(k: int, b: int)
    requires b != 0
    ensures TruncDiv(k * b, b) == k
  {
    var ak, ab := Abs(k), Abs(b);
    assert Abs(k * b) == ak * ab by {
      if k < 0 && b < 0 { assert k * b == (-k) * (-b); }
      else if k < 0 { assert k * b == -((-k) * b); }
      else if b < 0 { assert k * b == -(k * (-b)); }
    }
    DivExact(ak, ab);
    if k != 0 {
      if (k > 0) == (b > 0) {
        MulNonNegative(ak, ab);
        assert k * b > 0 by { if k < 0 { assert k * b == (-k) * (-b); MulStrict(-k, -b); } else { MulStrict(k, b); } }
      } else {
        assert k * b < 0 by { if k < 0 { assert k * b == -((-k) * b); MulStrict(-k, b); } else { assert k * b == -(k * (-b)); MulStrict(k, -b); } }
      }
    }
  }

  lemma MulStrict(x: int, y: int)
    requires 0 < x && 0 < y
    ensures 0 < x * y
  {
    MulMonotone(x, 1, y);
  }
}
