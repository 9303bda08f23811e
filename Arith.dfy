/** Facts about the mixed-radix numbers `q * m + r` that row-major tensor layouts are built from. */
module Arith {

  lemma {:induction false} MulMonotone(a: nat, b: nat, m: nat)
    requires a <= b
    ensures a * m <= b * m
  {
    if m > 0 {
      MulMonotone(a, b, m - 1);
      assert a * m == a * (m - 1) + a;
      assert b * m == b * (m - 1) + b;
    }
  }

  /** A digit pair `(q, r)` with `q < Q` and `r < m` stays below `Q * m`. */
  lemma PairBound(q: nat, r: nat, Q: nat, m: nat)
    requires q < Q && r < m
    ensures q * m + r < Q * m
  {
    MulMonotone(q + 1, Q, m);
  }

  lemma ZeroProduct(a: nat, b: nat)
    ensures a * b == 0 <==> a == 0 || b == 0
  {
    if a > 0 && b > 0 {
      MulMonotone(1, a, b);
    }
  }

  /** Position `q * m + r` of a row-major layout is row `q - 1`'s position shifted by one row. */
  lemma RowShift(q: nat, r: nat, m: nat)
    requires q > 0
    ensures q * m + r == m + ((q - 1) * m + r)
  {
  }

  /** Offset `k` strides of `N` rows past row `r`, with rows of width `w`, is row `k * N + r`. */
  lemma StrideOffset(w: nat, N: nat, r: nat, k: nat)
    ensures w * r + k * (w * N) == (k * N + r) * w
  {
    assert k * (w * N) == (k * N) * w;
  }

  /** Row `q` of a row-major (Q, m) layout ends within the buffer. */
  lemma RowEnd(q: nat, Q: nat, m: nat)
    requires q < Q
    ensures q * m + m <= Q * m
  {
    MulMonotone(q + 1, Q, m);
  }

  /** Euclidean division recovers both digits of `q * m + r`. */
  lemma PairDivMod(q: nat, r: nat, m: nat)
    requires r < m
    ensures (q * m + r) / m == q && (q * m + r) % m == r
  {
    var k := q * m + r;
    var q', r' := k / m, k % m;
    assert k == q' * m + r';
    if q' < q {
      MulMonotone(q' + 1, q, m);
      assert false;
    } else if q < q' {
      MulMonotone(q + 1, q', m);
      assert false;
    }
  }

  /** Any `k < Q * m` splits into a high digit below `Q` and a low digit below `m`. */
  lemma Unpair(k: nat, Q: nat, m: nat)
    requires k < Q * m
    ensures m > 0 && k / m < Q && k % m < m && k == (k / m) * m + k % m
  {
    if m > 0 && k / m >= Q {
      MulMonotone(Q, k / m, m);
      assert false;
    }
  }

  /** The element count of a (B, T, nh * hs) tensor equals that of its (B, nh, T, hs) transpose. */
  lemma Reassociate(a: nat, b: nat, c: nat, d: nat)
    ensures a * b * (c * d) == a * c * b * d
  {
    calc {
      a * b * (c * d);
      a * (b * (c * d));
      a * (c * (b * d));
      a * c * b * d;
    }
  }
}
