/// The landing-suitability filter of the LOITER state: an exponential filter
/// over a square window of the terrain grid, kept in a flat hysteresis buffer,
/// and the land/no-land vote over that buffer.
module LandingFilter {
  import opened Arithmetic

  /** Side of the smoothing window of half-width s: `smoothing_land_cell_ * 2 + 1`. */
  function Side(s: nat): nat
  {
    2 * s + 1
  }

  /** Cell (i, j) lies in the window of half-width s around cell (c, c). */
  predicate InWindow(i: int, j: int, c: int, s: nat)
  {
    c - s <= i <= c + s && c - s <= j <= c + s
  }

  /** The centre of a grid with n rows: `rows() / 2`. */
  function Centre(n: nat): nat
  {
    n / 2
  }

  /** The grid is square and the smoothing window around its centre lies inside it. */
  ghost predicate GridFits(grid: array2<real>, s: nat)
  {
    grid.Length0 == grid.Length1 && s <= Centre(grid.Length0) && Centre(grid.Length0) + s < grid.Length0
  }

  /** Position in the hysteresis buffer of grid cell (i, j) (row-major over the window). */
  function WindowIndex(i: int, j: int, c: int, s: nat): (k: int)
    ensures InWindow(i, j, c, s) ==> 0 <= k < Side(s) * Side(s)
  {
    RowMajorBound(i - c + s, j - c + s, Side(s));
    Side(s) * (i - c + s) + (j - c + s)
  }

  /** Grid row of buffer entry k. */
  function WindowRow(k: int, c: int, s: nat): int
  {
    c - s + k / Side(s)
  }

  /** Grid column of buffer entry k. */
  function WindowCol(k: int, c: int, s: nat): int
  {
    c - s + k % Side(s)
  }

  /** WindowIndex is one-to-one on the window: row and column come back from the index. */
  lemma WindowIndexInjective(i: int, j: int, c: int, s: nat)
    requires InWindow(i, j, c, s)
    ensures WindowRow(WindowIndex(i, j, c, s), c, s) == i
    ensures WindowCol(WindowIndex(i, j, c, s), c, s) == j
  {
    DivModOf(i - c + s, j - c + s, Side(s));
  }

  /** WindowIndex is onto [0, Side(s)^2): every buffer entry is the index of a window cell. */
  lemma WindowIndexOnto(k: int, c: int, s: nat)
    requires 0 <= k < Side(s) * Side(s)
    ensures InWindow(WindowRow(k, c, s), WindowCol(k, c, s), c, s)
    ensures WindowIndex(WindowRow(k, c, s), WindowCol(k, c, s), c, s) == k
  {
    QuotientBound(k, Side(s));
    assert k == Side(s) * (k / Side(s)) + k % Side(s);
  }

  /** The raw grid value that the filter folds into buffer entry k. */
  ghost function WindowCell(grid: array2<real>, s: nat, k: int): real
    requires GridFits(grid, s) && 0 <= k < Side(s) * Side(s)
    reads grid
  {
    WindowIndexOnto(k, Centre(grid.Length0), s);
    grid[WindowRow(k, Centre(grid.Length0), s), WindowCol(k, Centre(grid.Length0), s)]
  }

  /** Buffer entry WindowIndex(i, j) holds grid cell (i, j) of the window, and no other. */
  lemma WindowCellOfCell(grid: array2<real>, s: nat, i: int, j: int)
    requires GridFits(grid, s) && InWindow(i, j, Centre(grid.Length0), s)
    ensures 0 <= WindowIndex(i, j, Centre(grid.Length0), s) < Side(s) * Side(s)
    ensures WindowCell(grid, s, WindowIndex(i, j, Centre(grid.Length0), s)) == grid[i, j]
  {
    WindowIndexInjective(i, j, Centre(grid.Length0), s);
  }

  /** One step of the exponential filter: beta * previous + (1 - beta) * raw. */
  function Smooth(prev: real, raw: real, beta: real): (r: real)
    ensures r - raw == beta * (prev - raw)
  {
    beta * prev + (1.0 - beta) * raw
  }

  /** With beta in [0, 1] a filter step lands between the previous value and the raw value. */
  lemma SmoothBetween(prev: real, raw: real, beta: real)
    requires 0.0 <= beta <= 1.0
    ensures prev <= raw ==> prev <= Smooth(prev, raw, beta) <= raw
    ensures raw <= prev ==> raw <= Smooth(prev, raw, beta) <= prev
  {
    var d := prev - raw;
    var e := 1.0 - beta;
    assert e >= 0.0;
    if d >= 0.0 {
      assert beta * d >= 0.0 && e * d >= 0.0;
    } else {
      assert beta * -d >= 0.0 && e * -d >= 0.0;
    }
  }

  /** A cell's smoothed value after n cycles with the raw value held at v, from h0. */
  function SmoothIterate(h0: real, v: real, beta: real, n: nat): real
  {
    if n == 0 then h0 else Smooth(SmoothIterate(h0, v, beta, n - 1), v, beta)
  }

  function Pow(b: real, n: nat): real
  {
    if n == 0 then 1.0 else b * Pow(b, n - 1)
  }

  lemma {:induction false} PowUnit(b: real, n: nat)
    requires 0.0 <= b <= 1.0
    ensures 0.0 <= Pow(b, n) <= 1.0
  {
    if n > 0 {
      PowUnit(b, n - 1);
      assert 0.0 <= b * Pow(b, n - 1) <= 1.0 * Pow(b, n - 1);
    }
  }

  /** After n cycles the distance to the held value has shrunk by exactly beta^n. */
  lemma {:induction false} SmoothIterateGap(h0: real, v: real, beta: real, n: nat)
    ensures SmoothIterate(h0, v, beta, n) - v == Pow(beta, n) * (h0 - v)
  {
    if n > 0 {
      SmoothIterateGap(h0, v, beta, n - 1);
      var prev := SmoothIterate(h0, v, beta, n - 1);
      var p, g := Pow(beta, n - 1), h0 - v;
      assert SmoothIterate(h0, v, beta, n) == Smooth(prev, v, beta);
      assert Pow(beta, n) == beta * p;
      assert beta * (p * g) == (beta * p) * g;
    }
  }

  /**
   * With beta in [0, 1] and a constant raw value v, the smoothed value never
   * leaves the interval between its start h0 and v, and each cycle moves it
   * no farther from v.
   */
  lemma SmoothConverges(h0: real, v: real, beta: real, n: nat)
    requires 0.0 <= beta <= 1.0
    ensures h0 <= v ==> h0 <= SmoothIterate(h0, v, beta, n) <= v
    ensures v <= h0 ==> v <= SmoothIterate(h0, v, beta, n) <= h0
    ensures var gap := SmoothIterate(h0, v, beta, n) - v;
            var next := SmoothIterate(h0, v, beta, n + 1) - v;
            (gap >= 0.0 ==> 0.0 <= next <= gap) && (gap <= 0.0 ==> gap <= next <= 0.0)
  {
    SmoothIterateGap(h0, v, beta, n);
    PowUnit(beta, n);
    var p := Pow(beta, n);
    assert SmoothIterate(h0, v, beta, n) == Smooth(h0, v, p);
    SmoothBetween(h0, v, p);
    var gap := SmoothIterate(h0, v, beta, n) - v;
    assert SmoothIterate(h0, v, beta, n + 1) - v == Smooth(gap, 0.0, beta);
    SmoothBetween(gap, 0.0, beta);
  }

  /** Every one of the first n cells votes land: its value exceeds the threshold. */
  predicate AllAbove(cells: seq<real>, thr: real, n: nat)
    requires n <= |cells|
  {
    forall k :: 0 <= k < n ==> cells[k] > thr
  }

  /**
   * The vote loop as written, after its first n iterations: the running
   * `can_land_` (an AND of votes that is set back to true once the counter of
   * land votes reaches the buffer size) and `land_counter`.
   */
  function DecisionFold(cells: seq<real>, thr: real, canLand0: bool, n: nat): (r: (bool, nat))
    requires n <= |cells|
    ensures r.1 <= n
    ensures r.1 == n <==> AllAbove(cells, thr, n)
  {
    if n == 0 then (canLand0, 0)
    else
      var (canLand, counter) := DecisionFold(cells, thr, canLand0, n - 1);
      var vote := cells[n - 1] > thr;
      var counter' := if vote then counter + 1 else counter;
      var canLand' := canLand && vote;
      (if !canLand' && counter' == |cells| then true else canLand', counter')
  }

  lemma {:induction false} DecisionFoldPrefix(cells: seq<real>, thr: real, canLand0: bool, n: nat)
    requires n <= |cells|
    ensures DecisionFold(cells, thr, canLand0, n).0 ==
              (canLand0 && AllAbove(cells, thr, n)) || (0 < n == |cells| && AllAbove(cells, thr, n))
  {
    if n > 0 {
      DecisionFoldPrefix(cells, thr, canLand0, n - 1);
    }
  }

  /**
   * The vote loop over a non-empty buffer decides "every cell exceeds the
   * threshold", whatever `can_land_` held before: the set-back-to-true step
   * only restores what a fresh AND would give.
   */
  lemma DecisionIsFreshAnd(cells: seq<real>, thr: real, canLand0: bool)
    requires |cells| > 0
    ensures DecisionFold(cells, thr, canLand0, |cells|).0 == AllAbove(cells, thr, |cells|)
  {
    DecisionFoldPrefix(cells, thr, canLand0, |cells|);
  }

  /** `std::fill(..., 0.f)` over the buffer. */
  method ZeroFill(buffer: array<real>)
    modifies buffer
    ensures forall k :: 0 <= k < buffer.Length ==> buffer[k] == 0.0
  {
    forall k | 0 <= k < buffer.Length {
      buffer[k] := 0.0;
    }
  }

  /** One pass of the inner loop: grid row c - s + row into buffer entries [w * row, w * row + w). */
  method SmoothRow(buffer: array<real>, grid: array2<real>, s: nat, beta: real, row: nat, base: nat)
    requires GridFits(grid, s) && buffer.Length == Side(s) * Side(s)
    requires row < Side(s) && base == Side(s) * row
    modifies buffer
    ensures base + Side(s) <= buffer.Length
    ensures forall k :: base <= k < base + Side(s) ==>
              buffer[k] == Smooth(old(buffer[k]), WindowCell(grid, s, k), beta)
    ensures forall k :: 0 <= k < buffer.Length && !(base <= k < base + Side(s)) ==>
              buffer[k] == old(buffer[k])
  {
    var c := Centre(grid.Length0);
    var w := Side(s);
    RowMajorBound(row, w - 1, w);
    var i := c - s + row;
    var j := c - s;
    while j <= c + s
      invariant c - s <= j <= c + s + 1
      invariant forall k :: base <= k < base + (j - c + s) ==>
                  buffer[k] == Smooth(old(buffer[k]), WindowCell(grid, s, k), beta)
      invariant forall k :: 0 <= k < buffer.Length && !(base <= k < base + (j - c + s)) ==>
                  buffer[k] == old(buffer[k])
    {
      var index := w * (i - c + s) + (j - c + s);
      assert index == base + (j - c + s) < buffer.Length;
      assert index == WindowIndex(i, j, c, s);
      WindowIndexInjective(i, j, c, s);
      assert WindowCell(grid, s, index) == grid[i, j];
      buffer[index] := beta * buffer[index] + (1.0 - beta) * grid[i, j];
      j := j + 1;
    }
  }

  /**
   * The nested loop of the LOITER state: every window cell (i, j) of the grid
   * is folded into buffer entry WindowIndex(i, j), in place.
   */
  method SmoothWindow(buffer: array<real>, grid: array2<real>, s: nat, beta: real)
    requires GridFits(grid, s) && buffer.Length == Side(s) * Side(s)
    modifies buffer
    ensures forall k :: 0 <= k < buffer.Length ==>
              buffer[k] == Smooth(old(buffer[k]), WindowCell(grid, s, k), beta)
  {
    var w := Side(s);
    var row, done := 0, 0;
    while row < w
      invariant 0 <= row <= w && done == w * row && done <= buffer.Length
      invariant forall k :: 0 <= k < done ==>
                  buffer[k] == Smooth(old(buffer[k]), WindowCell(grid, s, k), beta)
      invariant forall k :: done <= k < buffer.Length ==> buffer[k] == old(buffer[k])
    {
      SmoothRow(buffer, grid, s, beta, row, done);
      assert done + w == w * (row + 1);
      row, done := row + 1, done + w;
    }
  }

  /**
   * The vote loop of the LOITER decision over the buffer. Over a non-empty
   * buffer the result is "every cell exceeds the threshold"; over an empty one
   * the loop does not run and `can_land_` keeps its value.
   */
  method DecideCanLand(buffer: array<real>, thr: real, canLand0: bool) returns (canLand: bool)
    ensures buffer.Length > 0 ==> (canLand <==> forall k :: 0 <= k < buffer.Length ==> buffer[k] > thr)
    ensures buffer.Length == 0 ==> canLand == canLand0
  {
    canLand := canLand0;
    var landCounter := 0;
    for i := 0 to buffer.Length
      invariant (canLand, landCounter) == DecisionFold(buffer[..], thr, canLand0, i)
    {
      if buffer[i] > thr {
        landCounter := landCounter + 1;
      }
      canLand := canLand && buffer[i] > thr;
      if !canLand && landCounter == buffer.Length {
        canLand := true;
      }
    }
    if buffer.Length > 0 {
      DecisionIsFreshAnd(buffer[..], thr, canLand0);
    }
  }
}
