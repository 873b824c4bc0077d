/// Integer facts about the row-major layout of the hysteresis buffer and the
/// cyclic exploration index. Helpers only; they model nothing by themselves.
module Arithmetic {

  /** Euclidean division recovers the quotient and remainder of w * q + r. */
  lemma DivModOf(q: int, r: int, w: int)
    requires w > 0 && 0 <= r < w
    ensures (w * q + r) / w == q && (w * q + r) % w == r
  {
    var k := w * q + r;
    var d := k / w - q;
    assert k == w * (k / w) + k % w;
    assert w * d == w * (k / w) - w * q;
    assert w * d == r - k % w;
  }

  /** A row-major position w * q + r with q, r < w lies below w * w. */
  lemma RowMajorBound(q: int, r: int, w: int)
    ensures 0 <= q < w && 0 <= r < w ==> 0 <= w * q + r < w * w
  {
    if 0 <= q < w && 0 <= r < w {
      var gap := w - 1 - q;
      assert w * w == w * q + w * gap + w;
      assert w * gap >= 0 && w * q >= 0;
    }
  }

  /** Below w * w, quotient and remainder by w both lie in [0, w). */
  lemma QuotientBound(k: int, w: int)
    requires w > 0 && 0 <= k < w * w
    ensures 0 <= k / w < w && 0 <= k % w < w
  {
    assert k == w * (k / w) + k % w;
  }

  /** Stepping a counter by one: the remainder wraps to 0 exactly when it reaches w. */
  lemma SuccessorDivMod(m: int, w: int)
    requires w > 0
    ensures m % w + 1 < w ==> (m + 1) % w == m % w + 1 && (m + 1) / w == m / w
    ensures m % w + 1 == w ==> (m + 1) % w == 0 && (m + 1) / w == m / w + 1
  {
    assert m == w * (m / w) + m % w;
    if m % w + 1 < w {
      DivModOf(m / w, m % w + 1, w);
    } else {
      assert m + 1 == w * (m / w + 1) + 0;
      DivModOf(m / w + 1, 0, w);
    }
  }
}
