/** The amounts a usage report computes in floating point, in whole numbers: what is asked back from a container above
    its fair share, and what a throttled container below it should gain. */
module Shares {
  import opened Words
  import opened CpuControl

  // ---------- a scaled amount is a quotient ----------

  lemma {:induction false} ProductAsReal(a: int, b: nat)
    ensures (a * b) as real == a as real * b as real
  {
    if b > 0 {
      ProductAsReal(a, b - 1);
      assert a * b == a * (b - 1) + a;
      assert b as real == (b - 1) as real + 1.0;
      Distribute(a as real, (b - 1) as real);
    }
  }

  lemma Distribute(x: real, y: real)
    ensures x * (y + 1.0) == x * y + x
  {
  }

  lemma MonotoneProduct(x: real, y: real, d: real)
    requires d > 0.0
    ensures x < y <==> x * d < y * d
  {
    if x < y {
      assert (y - x) * d > 0.0;
    } else {
      assert (x - y) * d >= 0.0;
    }
  }

  /** A quotient reaches `k` exactly when the dividend reaches `k` times the divisor. */
  lemma QuotientAtLeast(n: nat, d: nat, k: int)
    requires d > 0
    ensures n / d >= k <==> n >= k * d
  {
    var q := n / d;
    assert n == q * d + n % d;
    if q >= k {
      ProductMonotone(k, q, d);
    } else {
      ProductMonotone(q + 1, k, d);
      assert (q + 1) * d == q * d + d;
    }
  }

  lemma ProductMonotone(a: int, b: int, d: nat)
    requires a <= b
    ensures a * d <= b * d
  {
    assert (b - a) * d >= 0;
    assert b * d == a * d + (b - a) * d;
  }

  lemma RealAtLeast(x: real, n: nat, d: nat, k: int)
    requires d > 0 && x * d as real == n as real
    ensures x >= k as real <==> n >= k * d
  {
    ProductAsReal(k, d);
    MonotoneProduct(x, k as real, d as real);
  }

  lemma FloorBetween(x: real, q: int)
    requires x >= q as real && !(x >= (q + 1) as real)
    ensures x.Floor == q
  {
    assert (q + 1) as real == q as real + 1.0;
  }

  /** Rounding down a real that solves `x * d == n` is integer division. */
  lemma FloorIsQuotient(x: real, n: nat, d: nat)
    requires d > 0 && x * d as real == n as real
    ensures x.Floor == n / d && x >= 0.0
  {
    var q := n / d;
    assert x >= q as real && !(x >= (q + 1) as real) by {
      QuotientAtLeast(n, d, q);
      QuotientAtLeast(n, d, q + 1);
      RealAtLeast(x, n, d, q);
      RealAtLeast(x, n, d, q + 1);
    }
    FloorBetween(x, q);
  }

  lemma RatioTimes(a: real, f: real, b: real)
    requires f > 0.0
    ensures a / f * b * f == a * b
  {
    var x := a / f;
    assert x * f == a;
    assert x * b * f == x * f * b;
  }

  function Quotient(a: nat, b: nat, d: nat): nat
    requires d > 0
  {
    a * b / d
  }

  lemma ScaledFloor(a: nat, fair: nat, b: nat)
    requires fair > 0
    ensures var x := a as real / fair as real * b as real;
            x.Floor == Quotient(a, b, fair) && x >= 0.0
  {
    RatioTimes(a as real, fair as real, b as real);
    ProductAsReal(a, b);
    FloorIsQuotient(a as real / fair as real * b as real, a * b, fair);
  }

  function Capped(x: nat): Word {
    if x < TWO64 then x else MAX_WORD
  }

  /** Scaling `b` by the ratio of `a` to the fair share is one multiplication and one integer division. */
  lemma ScaledIsQuotient(a: Word, fair: Word, b: Word)
    requires fair > 0
    ensures Scaled(Percent(a, fair), b) == Capped(Quotient(a, b, fair))
  {
    ScaledFloor(a, fair, b);
    hide Quotient;
  }

  lemma RatioAboveOne(a: Word, fair: Word)
    requires fair > 0
    ensures Percent(a, fair) > 1.0 <==> a > fair
  {
    var x := a as real / fair as real;
    assert x * fair as real == a as real;
    MonotoneProduct(1.0, x, fair as real);
  }

  // ---------- asking back ----------

  /** What the excess asks for before small amounts are rounded up to all of it. */
  function Asked(fair: Word, slice: Word, rx: Word): nat
    requires 0 < fair < rx
  {
    var over := rx - fair;
    if over > fair then Quotient(over, slice, fair) else Quotient(over, over, fair)
  }

  lemma OverrunShareIs(fair: Word, slice: Word, rx: Word)
    requires 0 < fair < rx
    ensures OverrunShare(fair, slice, rx) ==
            if Capped(Asked(fair, slice, rx)) < slice / 2 then rx - fair else Capped(Asked(fair, slice, rx))
  {
    hide Percent, Scaled;
    var over := rx - fair;
    RatioAboveOne(over, fair);
    ScaledIsQuotient(over, fair, slice);
    ScaledIsQuotient(over, fair, over);
  }

  /** An excess beyond the fair share asks for at least a slice, a smaller one for no more than itself. */
  lemma AskedBounds(fair: Word, slice: Word, rx: Word)
    requires 0 < fair < rx
    ensures rx - fair > fair ==> Asked(fair, slice, rx) >= slice
    ensures rx - fair <= fair || slice <= fair ==> Asked(fair, slice, rx) <= rx - fair
  {
    var over := rx - fair;
    if over > fair {
      ProductMonotone(fair, over, slice);
      QuotientAtLeast(over * slice, fair, slice);
      if slice <= fair {
        ProductMonotone(slice, fair, over);
        SmallQuotient(over * slice, fair, over);
      }
    } else {
      ProductMonotone(over, fair, over);
      SmallQuotient(over * over, fair, over);
    }
  }

  lemma SmallQuotient(n: nat, d: nat, k: nat)
    requires d > 0 && n <= d * k
    ensures n / d <= k
  {
    QuotientAtLeast(n, d, k + 1);
    assert (k + 1) * d == d * k + d;
  }

  /** Above the fair share and with a fair share of at least one slice, a container gives up something, never
      more than its excess, and either all of its excess or at least half a slice. */
  lemma OverrunShareBounds(fair: Word, slice: Word, rx: Word)
    requires 2 <= slice <= fair < rx
    ensures var share := OverrunShare(fair, slice, rx);
            && 1 <= share <= rx - fair
            && (share == rx - fair || share >= slice / 2)
  {
    OverrunShareIs(fair, slice, rx);
    AskedBounds(fair, slice, rx);
    hide OverrunShare, Asked;
  }

  /** The inputs on which more is asked back than the container has: there is no fair share at all, or the excess is
      more than the fair share and the scaled slice is more than the quota. */
  predicate AsksTooMuch(fair: Word, slice: Word, rx: Word)
    requires fair < rx
  {
    fair == 0 || (rx - fair > fair && (rx - fair) * slice >= (rx + 1) * fair)
  }

  lemma AskedExceedsIff(fair: Word, slice: Word, rx: Word)
    requires 0 < fair < rx
    ensures Asked(fair, slice, rx) > rx <==> AsksTooMuch(fair, slice, rx)
  {
    var over := rx - fair;
    if over > fair {
      QuotientAtLeast(over * slice, fair, rx + 1);
    } else {
      AskedBounds(fair, slice, rx);
    }
  }

  lemma ShareExceedsIff(fair: Word, slice: Word, rx: Word)
    requires fair < rx < TWO63
    ensures OverrunShare(fair, slice, rx) > rx <==> AsksTooMuch(fair, slice, rx)
  {
    if fair > 0 {
      OverrunShareIs(fair, slice, rx);
      AskedBounds(fair, slice, rx);
      AskedExceedsIff(fair, slice, rx);
      hide OverrunShare, Asked, AsksTooMuch;
    }
  }

  // ---------- raising ----------

  /** What a gap wider than half a slice gains: the gap squared over the fair share. */
  lemma RaiseShareIs(fair: Word, slice: Word, rx: Word)
    requires rx < fair
    ensures var gap := fair - rx;
            RaiseShare(fair, slice, rx) == (if gap > slice / 2 then Quotient(gap, gap, fair) else gap) <= gap
  {
    hide Percent, Scaled;
    var gap := fair - rx;
    ScaledIsQuotient(gap, fair, gap);
    ProductMonotone(gap, fair, gap);
    SmallQuotient(gap * gap, fair, gap);
  }

  lemma RaiseShareBounds(fair: Word, slice: Word, rx: Word)
    requires rx < fair
    ensures RaiseShare(fair, slice, rx) <= fair - rx
    ensures fair - rx <= slice / 2 ==> RaiseShare(fair, slice, rx) == fair - rx
  {
    RaiseShareIs(fair, slice, rx);
    hide RaiseShare;
  }

  lemma RaiseShareIsZero(fair: Word, slice: Word, rx: Word)
    requires rx < fair
    ensures RaiseShare(fair, slice, rx) == 0 <==> fair - rx > slice / 2 && (fair - rx) * (fair - rx) < fair
  {
    RaiseShareIs(fair, slice, rx);
    hide RaiseShare;
    QuotientAtLeast((fair - rx) * (fair - rx), fair, 1);
  }
}
