/// The exploration pattern generator used when the LOITER decision is "cannot
/// land": a cyclic index over a fixed pattern of horizontal unit offsets, a
/// radius factor that grows by one per completed lap, and the goal built around
/// a fixed anchor.
module Exploration {
  import opened Arithmetic
  import opened Setpoints

  /** `n_explored_pattern_` and `factor_exploration_`. */
  datatype Progress = Progress(index: int, factor: real)

  /** The values a non-landing waypoint resets exploration to. */
  const START: Progress := Progress(-1, 1.0)

  /**
   * One step of the pattern index over a pattern of `size` points: the index
   * advances by one and, on reaching `size`, wraps to 0 while the factor grows
   * by one.
   */
  function Advance(p: Progress, size: nat): (q: Progress)
    requires 0 < size && -1 <= p.index < size
    ensures 0 <= q.index < size
    ensures q.index == (p.index + 1) % size
    ensures q.factor == p.factor + 1.0 <==> p.index == size - 1
    ensures q.factor == p.factor || q.factor == p.factor + 1.0
  {
    if p.index + 1 == size then Progress(0, p.factor + 1.0) else Progress(p.index + 1, p.factor)
  }

  /** Where exploration stands after k steps from START. */
  function Steps(k: nat, size: nat): (p: Progress)
    requires size > 0
    ensures -1 <= p.index < size
    ensures k > 0 ==> 0 <= p.index
  {
    if k == 0 then START else Advance(Steps(k - 1, size), size)
  }

  /**
   * After k >= 1 steps the index is (k - 1) mod size and the factor is one
   * plus the number of completed laps.
   */
  lemma {:induction false} StepsClosedForm(k: nat, size: nat)
    requires size > 0 && k > 0
    ensures Steps(k, size) == Progress((k - 1) % size, 1.0 + ((k - 1) / size) as real)
  {
    if k > 1 {
      StepsClosedForm(k - 1, size);
      SuccessorDivMod(k - 2, size);
    }
  }

  /**
   * The step that wraps for the r-th time lands on pattern point 0, and the
   * factor it leaves behind is r + 1; the factor before that step, which is the
   * one its goal is scaled by, is r.
   */
  lemma WrapUsesOldFactor(r: nat, size: nat)
    requires size > 0 && r > 0
    ensures Steps(r * size + 1, size).index == 0
    ensures Steps(r * size, size).factor == r as real
    ensures Steps(r * size + 1, size).factor == (r + 1) as real
  {
    StepsClosedForm(r * size, size);
    StepsClosedForm(r * size + 1, size);
    assert r * size - 1 == size * (r - 1) + (size - 1);
    DivModOf(r - 1, size - 1, size);
    assert r * size == size * r + 0;
    DivModOf(r, 0, size);
  }

  /** The distance scale of the next goal: spiral width * factor * 2 * half-width * cell size. */
  function Offset(spiralWidth: real, factor: real, s: nat, cellSize: real): (r: real)
    ensures s == 0 ==> r == 0.0
    ensures 0.0 <= spiralWidth && 0.0 <= factor && 0.0 <= cellSize ==> 0.0 <= r
  {
    spiralWidth * factor * 2.0 * (s as real) * cellSize
  }

  /**
   * Growing the factor by one widens the offset by exactly one lap's worth,
   * 2 * spiral width * half-width * cell size, and strictly so when those are
   * positive.
   */
  lemma OffsetGrowsWithFactor(spiralWidth: real, factor: real, s: nat, cellSize: real)
    ensures Offset(spiralWidth, factor + 1.0, s, cellSize)
            == Offset(spiralWidth, factor, s, cellSize) + 2.0 * spiralWidth * (s as real) * cellSize
    ensures spiralWidth > 0.0 && s > 0 && cellSize > 0.0 ==>
              Offset(spiralWidth, factor + 1.0, s, cellSize) > Offset(spiralWidth, factor, s, cellSize)
  {
    var lap := 2.0 * spiralWidth * (s as real) * cellSize;
    assert Offset(spiralWidth, factor, s, cellSize) == factor * lap;
    assert Offset(spiralWidth, factor + 1.0, s, cellSize) == (factor + 1.0) * lap;
    if spiralWidth > 0.0 && s > 0 && cellSize > 0.0 {
      assert 2.0 * spiralWidth > 0.0;
      assert 2.0 * spiralWidth * (s as real) > 0.0;
    }
  }

  /**
   * The exploration goal: the anchor moved horizontally by offset times the
   * pattern point, at the anchor's altitude. It lies at distance
   * offset * |point| from the anchor.
   */
  function ExplorationGoal(anchor: Setpoint3, offset: real, point: Point2): (g: Setpoint3)
    ensures g.z == anchor.z
    ensures g.x.Some? <==> anchor.x.Some?
    ensures g.y.Some? <==> anchor.y.Some?
    ensures anchor.x.Some? && anchor.y.Some? ==>
              var dx := g.x.value - anchor.x.value;
              var dy := g.y.value - anchor.y.value;
              dx * dx + dy * dy == offset * offset * (point.x * point.x + point.y * point.y)
  {
    Setpoint3(Shift(anchor.x, offset * point.x), Shift(anchor.y, offset * point.y), anchor.z)
  }
}
