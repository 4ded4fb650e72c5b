/** Arithmetic facts shared by the placement, resampling and interpolation
    models. Integer part: a channel-major buffer of `numChannels` channels
    of `n` samples, 8 bytes each, keeps sample `idx` of channel `c` in bytes
    `8 * (n * c + idx)` to `+ 8`; both the logger placement and the
    resampler lay out their output this way. Real part: signs of products
    and linear interpolation. */
module Arith {

  lemma ProductNonNegative(a: int, b: int)
    requires a >= 0 && b >= 0
    ensures a * b >= 0
  {
  }

  lemma TripleProductNonNegative(a: int, b: int, c: int)
    requires a >= 0 && b >= 0 && c >= 0
    ensures a * b * c >= 0
  {
    ProductNonNegative(a, b);
    ProductNonNegative(a * b, c);
  }

  lemma IntProductPositive(a: int, b: int)
    requires a > 0 && b > 0
    ensures a * b > 0
  {
    ProductNonNegative(a, b - 1);
    assert a * b == a * (b - 1) + a;
  }

  lemma MulAwayFromZero(n: int, d: int)
    requires n > 0
    ensures d >= 1 ==> n * d >= n
    ensures d <= -1 ==> n * d <= -n
  {
    if d >= 1 {
      ProductNonNegative(n, d - 1);
      assert n * d == n * (d - 1) + n;
    } else if d <= -1 {
      ProductNonNegative(n, -d - 1);
      assert n * d == -(n * (-d - 1)) - n;
    }
  }

  /** Quotient and remainder are unique. */
  lemma DivModOf(q: int, n: int, c: int, i: int)
    requires n > 0 && 0 <= i < n && q == n * c + i
    ensures q / n == c && q % n == i
  {
    var c', i' := q / n, q % n;
    assert q == n * c' + i';
    assert n * (c - c') == i' - i;
    MulAwayFromZero(n, c - c');
  }

  /** A slot of a channel that exists lies inside the buffer. */
  lemma SlotInBuffer(n: int, numChannels: int, chan: nat, idx: nat)
    requires chan < numChannels && idx < n
    ensures 8 * (n * chan + idx) + 8 <= n * 8 * numChannels
  {
    assert n * numChannels - n * chan == n * (numChannels - chan);
    MulAwayFromZero(n, numChannels - chan);
  }

  /** Different (channel, sample) pairs have different slots. */
  lemma SlotsDisjoint(n: int, c1: nat, i1: nat, c2: nat, i2: nat)
    requires i1 < n && i2 < n && (c1 != c2 || i1 != i2)
    ensures n * c1 + i1 != n * c2 + i2
  {
    DivModOf(n * c1 + i1, n, c1, i1);
    DivModOf(n * c2 + i2, n, c2, i2);
  }

  /** Byte `p` lies in the slot of sample `idx` of channel `c` exactly when
      `p // 8` is `numSamples * c + idx`, that is, when its channel is `c`
      and its sample is `idx`. */
  lemma InSlot(n: int, p: int, c: int, idx: int)
    requires n > 0 && p >= 0 && 0 <= idx < n
    ensures var start := 8 * (n * c + idx);
      (start <= p < start + 8) <==> (p / 8 / n == c && p / 8 % n == idx)
    ensures var start := 8 * (n * c + idx);
      start <= p < start + 8 ==> p % 8 == p - start
  {
    var start := 8 * (n * c + idx);
    var q := p / 8;
    if start <= p < start + 8 {
      DivModOf(p, 8, n * c + idx, p - start);
      DivModOf(q, n, c, idx);
    }
    if q / n == c && q % n == idx {
      DivSplit(q, n);
    }
  }

  lemma DivSplit(q: int, n: int)
    requires n > 0
    ensures q == n * (q / n) + q % n
  {
  }

  /** Every byte of the buffer belongs to one of its channels. */
  lemma ChannelBelow(n: int, numChannels: int, p: int)
    requires n > 0 && 0 <= p < n * 8 * numChannels
    ensures p / 8 / n < numChannels
  {
    var q := p / 8;
    DivSplit(q, n);
    assert q < n * numChannels;
    MulAwayFromZero(n, q / n - numChannels + 1);
  }

  lemma ProductPositive(a: real, b: real)
    requires a > 0.0 && b > 0.0
    ensures a * b > 0.0
  {
  }

  lemma ProductSign(a: real, b: real)
    requires a >= 0.0 && b >= 0.0
    ensures a * b >= 0.0
  {
  }

  /** A factor of a non-negative product with a positive factor is not
      negative. */
  lemma FactorSign(a: real, d: real)
    requires d > 0.0
    ensures a * d >= 0.0 ==> a >= 0.0
  {
  }

  lemma MulDivCancel(x: real, m: real)
    requires m != 0.0
    ensures m * x / m == x
  {
  }

  /** `v = a + t * (b - a)` with `t` in `[0, 1]` lies between `a` and `b`. */
  lemma ConvexBetween(a: real, b: real, t: real, v: real)
    requires 0.0 <= t <= 1.0 && v == a + t * (b - a)
    ensures (a <= v <= b) || (b <= v <= a)
  {
    if a <= b {
      ProductSign(t, b - a);
      ProductSign(1.0 - t, b - a);
      assert b - v == (1.0 - t) * (b - a);
    } else {
      ProductSign(t, a - b);
      ProductSign(1.0 - t, a - b);
      assert v - b == (1.0 - t) * (a - b);
    }
  }
}
