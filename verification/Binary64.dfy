/** IEEE 754 binary64 rounding (sections 3.4 and 4.3.1 of IEEE 754-2019) and
    Math.round (section 21.3.2.28 of ECMAScript 2021), on reals.
    Fl scales its argument by two until its significand has 53 integer bits and
    rounds there, half to even, so every proof is linear. The format's lower
    exponent limit is modelled (gradual underflow). Overflow to infinity is not:
    every result here is about far smaller values. */
module Binary64 {

  const TWO_TO_52: real := 4503599627370496.0
  const TWO_TO_53: real := 9007199254740992.0

  /** x times the unit roundoff, 2^-53. */
  function Roundoff(x: real): real {
    x / 9007199254740992.0
  }

  /** Doubles are multiples of 2^-1074. */
  const SMALLEST_BIT: nat := 1074

  function Abs(x: real): real {
    if x < 0.0 then -x else x
  }

  /** Round half to even. */
  function NearestEven(y: real): int {
    var f := y.Floor;
    var d := y - f as real;
    if d < 0.5 then f else if d > 0.5 then f + 1 else if f % 2 == 0 then f else f + 1
  }

  /** 0 <= x < 2^53 rounded to 53 bits, but to no bit below 2^-n. */
  function Fine(x: real, n: nat): real
    decreases n, x
  {
    if x >= TWO_TO_52 || n == 0 then NearestEven(x) as real else Fine(2.0 * x, n - 1) / 2.0
  }

  function Magnitude(x: real): real
    requires x >= 0.0
    decreases x.Floor
  {
    if x < TWO_TO_53 then Fine(x, SMALLEST_BIT) else 2.0 * Magnitude(x / 2.0)
  }

  /** The double nearest to x, ties to the even significand. */
  function Fl(x: real): (r: real) {
    if x < 0.0 then -Magnitude(-x) else Magnitude(x)
  }

  /** Math.round: the nearest integer, ties toward plus infinity. */
  function MathRound(x: real): int {
    (x + 0.5).Floor
  }

  /** Among |y| <= 2^53: an integer, or a smaller value with more bits after the point. */
  predicate IsFine(y: real, n: nat)
    decreases n, y
  {
    y == y.Floor as real || (n > 0 && -TWO_TO_52 <= y <= TWO_TO_52 && IsFine(2.0 * y, n - 1))
  }

  /** y is a double: its significand fits 53 bits. */
  predicate IsDouble(y: real)
    decreases Abs(y).Floor
  {
    if Abs(y) <= TWO_TO_53 then IsFine(y, SMALLEST_BIT) else IsDouble(y / 2.0)
  }

  // ---- Rounding to integers ----

  /** No integer is nearer. */
  lemma NearestEvenIsNearest(y: real, n: int)
    ensures Abs(NearestEven(y) as real - y) <= 0.5
    ensures Abs(NearestEven(y) as real - y) <= Abs(n as real - y)
  {
    if n <= y.Floor {
      assert n as real <= y.Floor as real;
    } else {
      assert n as real >= (y.Floor + 1) as real;
    }
  }

  /** A tie goes to the even integer. */
  lemma NearestEvenTies(y: real)
    requires y - y.Floor as real == 0.5
    ensures NearestEven(y) % 2 == 0
  {
  }

  /** Math.round goes to the nearest integer, and up on a tie. */
  lemma MathRoundTies(x: real)
    ensures -0.5 < MathRound(x) as real - x <= 0.5
  {
  }

  lemma NearestEvenMonotone(x: real, y: real)
    requires x <= y
    ensures NearestEven(x) <= NearestEven(y)
  {
    assert x.Floor <= y.Floor;
  }

  lemma MathRoundNear(x: real, n: int)
    requires -0.5 <= x - n as real < 0.5
    ensures MathRound(x) == n
  {
  }

  lemma MathRoundMonotone(x: real, y: real)
    requires x <= y
    ensures MathRound(x) <= MathRound(y)
  {
  }

  // ---- Below 2^53 ----

  /** x has a normal significand when its last bit may be 2^-n. */
  predicate IsNormal(x: real, n: nat)
    decreases n, x
  {
    x >= TWO_TO_52 || (n > 0 && IsNormal(2.0 * x, n - 1))
  }

  lemma {:induction false} FineRange(x: real, n: nat)
    requires 0.0 <= x < TWO_TO_53
    ensures 0.0 <= Fine(x, n) <= TWO_TO_53
    decreases n
  {
    if x >= TWO_TO_52 || n == 0 {
      NearestEvenMonotone(0.0, x);
      NearestEvenMonotone(x, TWO_TO_53);
    } else {
      FineRange(2.0 * x, n - 1);
    }
  }

  lemma {:induction false} FineError(x: real, n: nat)
    requires 0.0 <= x < TWO_TO_53 && IsNormal(x, n)
    ensures Abs(Fine(x, n) - x) <= Roundoff(x)
    decreases n
  {
    if x >= TWO_TO_52 {
      NearestEvenIsNearest(x, 0);
    } else {
      FineError(2.0 * x, n - 1);
    }
  }

  lemma {:induction false} FineZero(n: nat)
    ensures Fine(0.0, n) == 0.0
  {
    if n > 0 {
      FineZero(n - 1);
    }
  }

  lemma {:induction false} FineIsFine(x: real, n: nat)
    requires 0.0 <= x < TWO_TO_53
    ensures IsFine(Fine(x, n), n)
    decreases n
  {
    if x < TWO_TO_52 && n > 0 {
      FineRange(2.0 * x, n - 1);
      FineIsFine(2.0 * x, n - 1);
    }
  }

  lemma {:induction false} FineNearest(x: real, y: real, n: nat)
    requires 0.0 <= x < TWO_TO_53 && IsFine(y, n)
    ensures Abs(Fine(x, n) - x) <= Abs(y - x)
    decreases n
  {
    if y == y.Floor as real && (x >= TWO_TO_52 || n == 0) {
      NearestEvenIsNearest(x, y.Floor);
    } else if x >= TWO_TO_52 {
      NearestEvenIsNearest(x, 4503599627370496);
      assert y <= TWO_TO_52;
    } else {
      DoubledFine(y, n);
      FineNearest(2.0 * x, 2.0 * y, n - 1);
      assert Abs(2.0 * y - 2.0 * x) == 2.0 * Abs(y - x);
    }
  }

  lemma DoubledFine(y: real, n: nat)
    requires IsFine(y, n) && n > 0
    ensures IsFine(2.0 * y, n - 1)
  {
    if y == y.Floor as real {
      IntegerIsFine(2 * y.Floor, n - 1);
    }
  }

  lemma IntegerIsFine(k: int, n: nat)
    ensures IsFine(k as real, n)
  {
  }

  lemma {:induction false} FineMonotone(x: real, y: real, n: nat)
    requires 0.0 <= x <= y < TWO_TO_53
    ensures Fine(x, n) <= Fine(y, n)
    decreases n
  {
    if n == 0 || x >= TWO_TO_52 {
      NearestEvenMonotone(x, y);
    } else if y >= TWO_TO_52 {
      FineRange(2.0 * x, n - 1);
      NearestEvenMonotone(TWO_TO_52, y);
    } else {
      FineMonotone(2.0 * x, 2.0 * y, n - 1);
    }
  }

  lemma {:induction false} DoublingReaches(x: real, floor: real, n: nat, k: nat)
    requires floor <= x && k <= n && IsNormal(floor, k)
    ensures IsNormal(x, n)
    decreases k
  {
    if x < TWO_TO_52 {
      DoublingReaches(2.0 * x, 2.0 * floor, n - 1, k - 1);
    }
  }

  lemma TenDoublings(x: real, n: nat)
    requires IsNormal(1024.0 * x, n)
    ensures IsNormal(x, n + 10)
  {
    assert IsNormal(512.0 * x, n + 1);
    assert IsNormal(256.0 * x, n + 2);
    assert IsNormal(128.0 * x, n + 3);
    assert IsNormal(64.0 * x, n + 4);
    assert IsNormal(32.0 * x, n + 5);
    assert IsNormal(16.0 * x, n + 6);
    assert IsNormal(8.0 * x, n + 7);
    assert IsNormal(4.0 * x, n + 8);
    assert IsNormal(2.0 * x, n + 9);
  }

  lemma TenthOfAPaisaIsNormal()
    ensures IsNormal(0.001, 62)
  {
    var t := 1024.0;
    var m := t * t;
    assert 4.0 * (m * m * m * 0.001) >= TWO_TO_52;
    assert IsNormal(2.0 * (m * m * m * 0.001), 1);
    TenDoublings(m * m * t * 0.001, 2);
    TenDoublings(m * m * 0.001, 12);
    TenDoublings(m * t * 0.001, 22);
    TenDoublings(m * 0.001, 32);
    TenDoublings(t * 0.001, 42);
    TenDoublings(0.001, 52);
  }

  // ---- Fl is correct rounding ----

  lemma {:induction false} MagnitudeError(x: real)
    requires x == 0.0 || (x > 0.0 && IsNormal(x, SMALLEST_BIT))
    ensures Abs(Magnitude(x) - x) <= Roundoff(x)
    decreases x.Floor
  {
    if x == 0.0 {
      FineZero(SMALLEST_BIT);
    } else if x < TWO_TO_53 {
      FineError(x, SMALLEST_BIT);
    } else {
      MagnitudeError(x / 2.0);
    }
  }

  lemma {:induction false} MagnitudeIsDouble(x: real)
    requires x >= 0.0
    ensures Magnitude(x) >= 0.0 && IsDouble(Magnitude(x)) && IsDouble(-Magnitude(x))
    ensures x >= TWO_TO_52 ==> Magnitude(x) >= TWO_TO_52
    decreases x.Floor
  {
    if x < TWO_TO_53 {
      FineRange(x, SMALLEST_BIT);
      FineIsFine(x, SMALLEST_BIT);
      NegatedFine(Magnitude(x), SMALLEST_BIT);
      if x >= TWO_TO_52 {
        NearestEvenMonotone(TWO_TO_52, x);
      }
    } else {
      MagnitudeIsDouble(x / 2.0);
      var h := Magnitude(x / 2.0);
      if h == TWO_TO_52 {
        assert TWO_TO_53.Floor as real == TWO_TO_53 && (-TWO_TO_53).Floor as real == -TWO_TO_53;
      }
      assert (2.0 * h) / 2.0 == h && (-2.0 * h) / 2.0 == -h;
    }
  }

  lemma NegatedInteger(k: int)
    ensures (-(k as real)).Floor as real == -(k as real)
  {
    assert (-k) as real == -(k as real);
  }

  lemma {:induction false} NegatedFine(y: real, n: nat)
    requires IsFine(y, n)
    ensures IsFine(-y, n)
    decreases n
  {
    if y == y.Floor as real {
      NegatedInteger(y.Floor);
    } else {
      NegatedFine(2.0 * y, n - 1);
      assert 2.0 * (-y) == -(2.0 * y);
    }
  }

  lemma {:induction false} MagnitudeNearest(x: real, y: real)
    requires x >= 0.0 && IsDouble(y)
    ensures Abs(Magnitude(x) - x) <= Abs(y - x)
    decreases x.Floor
  {
    if x < TWO_TO_53 {
      var nearer := if y > TWO_TO_53 then TWO_TO_53 else if y < 0.0 then 0.0 else y;
      assert TWO_TO_53.Floor as real == TWO_TO_53;
      FineNearest(x, nearer, SMALLEST_BIT);
    } else if y > TWO_TO_53 {
      MagnitudeNearest(x / 2.0, y / 2.0);
    } else {
      assert TWO_TO_52.Floor as real == TWO_TO_52;
      MagnitudeNearest(x / 2.0, TWO_TO_52);
    }
  }

  lemma {:induction false} MagnitudeMonotone(x: real, y: real)
    requires 0.0 <= x <= y
    ensures 0.0 <= Magnitude(x) <= Magnitude(y)
    decreases y.Floor
  {
    MagnitudeIsDouble(x);
    if y < TWO_TO_53 {
      FineMonotone(x, y, SMALLEST_BIT);
    } else if x < TWO_TO_53 {
      FineRange(x, SMALLEST_BIT);
      MagnitudeIsDouble(y / 2.0);
    } else {
      MagnitudeMonotone(x / 2.0, y / 2.0);
    }
  }

  /** The relative error bound of the format: for zero and for every magnitude in its normal
      range. */
  lemma FlErrorNormal(x: real)
    requires x == 0.0 || IsNormal(Abs(x), SMALLEST_BIT)
    ensures Abs(Fl(x) - x) <= Roundoff(Abs(x))
  {
    NormalIsPositive(Abs(x), SMALLEST_BIT);
    MagnitudeError(Abs(x));
  }

  lemma {:induction false} NormalIsPositive(x: real, n: nat)
    ensures IsNormal(x, n) ==> x > 0.0
    decreases n
  {
    if x < TWO_TO_52 && n > 0 {
      NormalIsPositive(2.0 * x, n - 1);
    }
  }

  /** Money is in that range: anything from a tenth of a paisa up is. */
  lemma FlError(x: real)
    requires x == 0.0 || Abs(x) >= 0.001
    ensures Abs(Fl(x) - x) <= Roundoff(Abs(x))
  {
    if x != 0.0 {
      TenthOfAPaisaIsNormal();
      DoublingReaches(Abs(x), 0.001, SMALLEST_BIT, 62);
    }
    FlErrorNormal(x);
  }

  lemma FlIsDouble(x: real)
    ensures IsDouble(Fl(x))
  {
    MagnitudeIsDouble(Abs(x));
  }

  /** No double is nearer to x than Fl(x). */
  lemma FlNearest(x: real, y: real)
    requires IsDouble(y)
    ensures Abs(Fl(x) - x) <= Abs(y - x)
  {
    if x < 0.0 {
      NegatedDouble(y);
      MagnitudeNearest(-x, -y);
    } else {
      MagnitudeNearest(x, y);
    }
  }

  lemma {:induction false} NegatedDouble(y: real)
    requires IsDouble(y)
    ensures IsDouble(-y)
    decreases Abs(y).Floor
  {
    if Abs(y) <= TWO_TO_53 {
      NegatedFine(y, SMALLEST_BIT);
    } else {
      NegatedDouble(y / 2.0);
      assert (-y) / 2.0 == -(y / 2.0);
    }
  }

  /** A double rounds to itself. */
  lemma FlExact(x: real)
    requires IsDouble(x)
    ensures Fl(x) == x
  {
    FlNearest(x, x);
  }

  lemma FlMonotone(x: real, y: real)
    requires x <= y
    ensures Fl(x) <= Fl(y)
  {
    if x < 0.0 && y < 0.0 {
      MagnitudeMonotone(-y, -x);
    } else if x < 0.0 {
      MagnitudeMonotone(0.0, -x);
      MagnitudeMonotone(0.0, y);
    } else {
      MagnitudeMonotone(x, y);
    }
  }
}
