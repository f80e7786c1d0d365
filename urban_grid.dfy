/** The city grid: congestion levels, traffic incidents and synchronised traffic lights. */
module UrbanGrids {
  import opened Common

  /** A value snapshot of a `real` grid, row `i` holding the cells `[i, 0..]`. */
  type Field = seq<seq<real>>

  predicate Square(f: Field, n: nat)
  {
    |f| == n && forall i :: 0 <= i < n ==> |f[i]| == n
  }

  function Snapshot(a: array2<real>): (f: Field)
    reads a
    ensures Square(f, a.Length0) || a.Length0 != a.Length1
    ensures |f| == a.Length0
    ensures forall i, j :: 0 <= i < a.Length0 && 0 <= j < a.Length1 ==> |f[i]| == a.Length1 && f[i][j] == a[i, j]
  {
    seq(a.Length0, i requires 0 <= i < a.Length0 reads a =>
      seq(a.Length1, j requires 0 <= j < a.Length1 reads a => a[i, j]))
  }

  lemma FieldsEqual(f: Field, g: Field, n: nat)
    requires Square(f, n) && Square(g, n)
    requires forall i, j :: 0 <= i < n && 0 <= j < n ==> f[i][j] == g[i][j]
    ensures f == g
  {
    forall i | 0 <= i < n ensures f[i] == g[i] {
      assert |f[i]| == |g[i]| == n;
    }
  }

  // ---------------------------------------------------------------------------
  // Congestion update

  /** How many times `p` occurs in `ps`: the heat-map cell that `update_congestion` builds. */
  function Count(ps: seq<Pos>, p: Pos): nat
  {
    if ps == [] then 0 else Count(ps[..|ps| - 1], p) + (if ps[|ps| - 1] == p then 1 else 0)
  }

  /** The heat map counts every occurrence, so repeated positions add up. */
  lemma {:induction false} CountIsMultiplicity(ps: seq<Pos>, p: Pos)
    ensures Count(ps, p) == multiset(ps)[p]
  {
    if ps != [] {
      var init := ps[..|ps| - 1];
      CountIsMultiplicity(init, p);
      assert ps == init + [ps[|ps| - 1]];
    }
  }

  /** One cell of the moving average: weight `1 - rate` on the old value, `rate` on the new. */
  function Mix(previous: real, current: real, rate: real): real
  {
    (1.0 - rate) * previous + rate * current
  }

  /** The exponential moving average of the old field and the heat map. */
  function Blend(f: Field, ps: seq<Pos>, rate: real): (g: Field)
    ensures |g| == |f|
    ensures forall i :: 0 <= i < |f| ==> |g[i]| == |f[i]|
    ensures forall i, j :: 0 <= i < |f| && 0 <= j < |f[i]| ==>
      g[i][j] == Mix(f[i][j], Count(ps, Pos(i, j)) as real, rate)
  {
    seq(|f|, i requires 0 <= i < |f| =>
      seq(|f[i]|, j requires 0 <= j < |f[i]| => Mix(f[i][j], Count(ps, Pos(i, j)) as real, rate)))
  }

  lemma BlendCell(f: Field, ps: seq<Pos>, rate: real, i: int, j: int)
    requires 0 <= i < |f| && 0 <= j < |f[i]|
    ensures Blend(f, ps, rate)[i][j] == Mix(f[i][j], Count(ps, Pos(i, j)) as real, rate)
  {
  }

  /** A field whose every cell follows the blend formula is the blend. */
  lemma BlendMatches(f0: Field, f1: Field, ps: seq<Pos>, rate: real, n: nat)
    requires Square(f0, n) && Square(f1, n)
    requires forall i, j :: 0 <= i < n && 0 <= j < n ==> f1[i][j] == Mix(f0[i][j], Count(ps, Pos(i, j)) as real, rate)
    ensures f1 == Blend(f0, ps, rate)
  {
    var b := Blend(f0, ps, rate);
    forall i, j | 0 <= i < n && 0 <= j < n ensures f1[i][j] == b[i][j] {
      BlendCell(f0, ps, rate, i, j);
    }
    FieldsEqual(f1, b, n);
  }

  function RowMax(r: seq<real>): (m: real)
    requires |r| > 0
    ensures forall j :: 0 <= j < |r| ==> r[j] <= m
    ensures exists j :: 0 <= j < |r| && r[j] == m
  {
    if |r| == 1 then r[0]
    else
      var m0 := RowMax(r[..|r| - 1]);
      assert forall j :: 0 <= j < |r| - 1 ==> r[..|r| - 1][j] == r[j];
      if r[|r| - 1] > m0 then r[|r| - 1] else m0
  }

  /** `np.max` of a non-empty field. */
  function FieldMax(f: Field): (m: real)
    requires |f| > 0 && forall i :: 0 <= i < |f| ==> |f[i]| > 0
    ensures forall i, j :: 0 <= i < |f| && 0 <= j < |f[i]| ==> f[i][j] <= m
    ensures exists i, j :: 0 <= i < |f| && 0 <= j < |f[i]| && f[i][j] == m
  {
    var last := RowMax(f[|f| - 1]);
    if |f| == 1 then last
    else
      var m0 := FieldMax(f[..|f| - 1]);
      assert forall i :: 0 <= i < |f| - 1 ==> f[..|f| - 1][i] == f[i];
      if last > m0 then last else m0
  }

  /** Divides every cell by the maximum when the maximum is positive; leaves the field alone otherwise. */
  function Normalise(f: Field): (g: Field)
    requires |f| > 0 && forall i :: 0 <= i < |f| ==> |f[i]| > 0
    ensures |g| == |f| && forall i :: 0 <= i < |f| ==> |g[i]| == |f[i]|
    ensures FieldMax(f) > 0.0 ==> forall i, j :: 0 <= i < |f| && 0 <= j < |f[i]| ==> g[i][j] == f[i][j] / FieldMax(f)
    ensures FieldMax(f) <= 0.0 ==> g == f
  {
    var m := FieldMax(f);
    if m > 0.0 then seq(|f|, i requires 0 <= i < |f| => seq(|f[i]|, j requires 0 <= j < |f[i]| => f[i][j] / m))
    else f
  }

  /** The congestion field after `update_congestion(ps)`. */
  function CongestionAfter(f: Field, ps: seq<Pos>, rate: real): (g: Field)
    requires |f| > 0 && forall i :: 0 <= i < |f| ==> |f[i]| > 0
    ensures |g| == |f| && forall i :: 0 <= i < |f| ==> |g[i]| == |f[i]|
  {
    Normalise(Blend(f, ps, rate))
  }

  predicate InUnit(f: Field)
  {
    forall i, j :: 0 <= i < |f| && 0 <= j < |f[i]| ==> 0.0 <= f[i][j] <= 1.0
  }

  predicate HasPositive(f: Field)
  {
    exists i, j :: 0 <= i < |f| && 0 <= j < |f[i]| && f[i][j] > 0.0
  }

  lemma BlendNonNegative(f: Field, ps: seq<Pos>, rate: real)
    requires InUnit(f) && 0.0 <= rate <= 1.0
    ensures NonNegative(Blend(f, ps, rate))
  {
    forall i, j | 0 <= i < |f| && 0 <= j < |f[i]| ensures Blend(f, ps, rate)[i][j] >= 0.0 {
      var c := Count(ps, Pos(i, j)) as real;
      MulNonNegative(1.0 - rate, f[i][j]);
      MulNonNegative(rate, c);
    }
  }

  predicate NonNegative(f: Field)
  {
    forall i, j :: 0 <= i < |f| && 0 <= j < |f[i]| ==> f[i][j] >= 0.0
  }

  lemma DivideWithinUnit(x: real, m: real)
    requires 0.0 <= x <= m && m > 0.0
    ensures 0.0 <= x / m <= 1.0
  {
    assert x / m * m == x;
  }

  lemma DivideBySelf(m: real)
    requires m > 0.0
    ensures m / m == 1.0
  {
  }

  lemma NormalisePositive(f: Field)
    requires |f| > 0 && forall i :: 0 <= i < |f| ==> |f[i]| > 0
    requires NonNegative(f) && FieldMax(f) > 0.0
    ensures InUnit(Normalise(f)) && FieldMax(Normalise(f)) == 1.0
  {
    var m := FieldMax(f);
    var g := Normalise(f);
    forall i, j | 0 <= i < |g| && 0 <= j < |g[i]| ensures 0.0 <= g[i][j] <= 1.0 {
      assert g[i][j] == f[i][j] / m;
      DivideWithinUnit(f[i][j], m);
    }
    var i0, j0 :| 0 <= i0 < |f| && 0 <= j0 < |f[i0]| && f[i0][j0] == m;
    assert g[i0][j0] == m / m;
    DivideBySelf(m);
    var top := FieldMax(g);
    var ti, tj :| 0 <= ti < |g| && 0 <= tj < |g[ti]| && g[ti][tj] == top;
  }

  lemma NormaliseZero(f: Field)
    requires |f| > 0 && forall i :: 0 <= i < |f| ==> |f[i]| > 0
    requires NonNegative(f) && FieldMax(f) <= 0.0
    ensures Normalise(f) == f && !HasPositive(f) && InUnit(f)
  {
    var m := FieldMax(f);
    forall i, j | 0 <= i < |f| && 0 <= j < |f[i]| ensures f[i][j] == 0.0 {
      assert f[i][j] <= m;
    }
  }

  /** Normalising a non-negative field lands in [0, 1] with maximum exactly 1 when some cell is
      positive, and leaves a field with no positive cell as it is. */
  lemma NormaliseSpec(f: Field)
    requires |f| > 0 && forall i :: 0 <= i < |f| ==> |f[i]| > 0
    requires NonNegative(f)
    ensures InUnit(Normalise(f))
    ensures HasPositive(Normalise(f)) ==> FieldMax(Normalise(f)) == 1.0
    ensures !HasPositive(f) ==> Normalise(f) == f
  {
    if FieldMax(f) > 0.0 {
      NormalisePositive(f);
      var i0, j0 :| 0 <= i0 < |f| && 0 <= j0 < |f[i0]| && f[i0][j0] == FieldMax(f);
    } else {
      NormaliseZero(f);
    }
  }

  /** From a field in [0, 1] and a rate in [0, 1], the updated field stays in [0, 1]; its maximum
      is exactly 1 whenever some cell is positive; a blended field with no positive cell is
      returned as it is, without dividing. */
  lemma CongestionAfterSpec(f: Field, ps: seq<Pos>, rate: real)
    requires |f| > 0 && forall i :: 0 <= i < |f| ==> |f[i]| > 0
    requires InUnit(f) && 0.0 <= rate <= 1.0
    ensures var g := CongestionAfter(f, ps, rate);
      && InUnit(g)
      && (HasPositive(g) ==> FieldMax(g) == 1.0)
      && (!HasPositive(Blend(f, ps, rate)) ==> g == Blend(f, ps, rate))
  {
    BlendNonNegative(f, ps, rate);
    NormaliseSpec(Blend(f, ps, rate));
  }

  // ---------------------------------------------------------------------------
  // Traffic lights

  /** A light stands where both coordinates are odd (`range(1, size, 2)` in both axes). */
  predicate IsIntersection(i: int, j: int)
  {
    i % 2 == 1 && j % 2 == 1
  }

  /** The state `init_traffic_lights` writes: 1 (north-south green) when `i + j` is even, else 2. */
  function InitialState(i: int, j: int): int
  {
    if (i + j) % 2 == 0 then 1 else 2
  }

  /** Both coordinates odd makes `i + j` even, so every light starts in state 1. */
  lemma {:induction false} IntersectionsStartNorthSouth(i: int, j: int)
    requires IsIntersection(i, j)
    ensures InitialState(i, j) == 1
  {
    assert i == 2 * (i / 2) + 1 && j == 2 * (j / 2) + 1;
    assert i + j == 2 * (i / 2 + j / 2 + 1);
  }

  /** `3 - v` on lit cells, nothing on dark ones. */
  function Toggle(v: int): int
  {
    if v > 0 then 3 - v else v
  }

  /** One `update_traffic_lights` step on one cell, `cycle` being the already incremented counter. */
  function Tick(v: int, cycle: int, period: int): int
    requires period != 0
  {
    if cycle % period == 0 then Toggle(v) else v
  }

  predicate LightValue(v: int)
  {
    v == 0 || v == 1 || v == 2
  }

  /** Lights stay in {0, 1, 2}, lit cells stay lit, dark cells stay dark, and two toggles cancel. */
  lemma TickKeepsLights(v: int, cycle: int, period: int)
    requires LightValue(v) && period != 0
    ensures LightValue(Tick(v, cycle, period))
    ensures Tick(v, cycle, period) > 0 <==> v > 0
    ensures Toggle(Toggle(v)) == v
  {
  }

  /** A cell after `k` steps from counter `c0`. */
  function LightAfter(v: int, c0: int, k: nat, period: int): int
    requires period != 0
  {
    if k == 0 then v else Tick(LightAfter(v, c0, k - 1, period), c0 + k, period)
  }

  /** From `current_cycle = 0`, fewer than `period` steps change nothing and exactly `period`
      steps toggle the light exactly once. */
  lemma {:induction false} FullCycleTogglesOnce(v: int, period: int, k: nat)
    requires period > 0 && k <= period
    ensures LightAfter(v, 0, k, period) == if k == period then Toggle(v) else v
  {
    if k > 0 {
      FullCycleTogglesOnce(v, period, k - 1);
      assert LightAfter(v, 0, k, period) == Tick(LightAfter(v, 0, k - 1, period), k, period);
      if k < period {
        ModBelow(k, period);
      } else {
        ModSelf(period);
      }
    }
  }

  lemma ModBelow(k: int, period: int)
    requires 0 < k < period
    ensures k % period != 0
  {
  }

  lemma ModSelf(period: int)
    requires period > 0
    ensures period % period == 0
  {
  }

  // ---------------------------------------------------------------------------
  // Congestion window

  function Min(a: int, b: int): int { if a < b then a else b }
  function Max(a: int, b: int): int { if a < b then b else a }

  /** A half-open rectangle of cells `[x0, x1) x [y0, y1)`. */
  datatype Rect = Rect(x0: int, x1: int, y0: int, y1: int)

  /** The window of `get_congestion_window`, clamped to the grid. */
  function WindowRect(n: int, x: int, y: int, windowSize: int): Rect
  {
    var half := windowSize / 2;
    Rect(Max(0, x - half), Min(n - 1, x + half) + 1, Max(0, y - half), Min(n - 1, y + half) + 1)
  }

  predicate InRect(w: Rect, i: int, j: int)
  {
    w.x0 <= i < w.x1 && w.y0 <= j < w.y1
  }

  /** For a cell inside the grid and a non-negative window size, the clamped window is
      non-empty, holds the cell, and is exactly the grid cells within `windowSize / 2` of it
      along each axis. */
  lemma WindowRectSpec(n: int, x: int, y: int, windowSize: int)
    requires InBounds(Pos(x, y), n) && windowSize >= 0
    ensures var w := WindowRect(n, x, y, windowSize);
      && 0 <= w.x0 <= x < w.x1 <= n && 0 <= w.y0 <= y < w.y1 <= n
      && forall i, j :: InRect(w, i, j) <==>
           (0 <= i < n && 0 <= j < n && Abs(i - x) <= windowSize / 2 && Abs(j - y) <= windowSize / 2)
  {
    var half := windowSize / 2;
    assert half >= 0;
  }

  predicate Fits(f: Field, w: Rect)
  {
    0 <= w.x0 <= w.x1 <= |f| && 0 <= w.y0 <= w.y1 && forall i :: w.x0 <= i < w.x1 ==> w.y1 <= |f[i]|
  }

  function RowSum(r: seq<real>, lo: int, hi: int): real
    requires 0 <= lo <= hi <= |r|
    decreases hi - lo
  {
    if lo == hi then 0.0 else RowSum(r, lo, hi - 1) + r[hi - 1]
  }

  function RectSum(f: Field, w: Rect): real
    requires Fits(f, w)
    decreases w.x1 - w.x0
  {
    if w.x0 == w.x1 then 0.0 else RectSum(f, w.(x1 := w.x1 - 1)) + RowSum(f[w.x1 - 1], w.y0, w.y1)
  }

  ghost predicate Between(f: Field, w: Rect, lo: real, hi: real)
    requires Fits(f, w)
  {
    forall i, j :: w.x0 <= i < w.x1 && w.y0 <= j < w.y1 ==> lo <= f[i][j] <= hi
  }

  /** `a` added to itself `n` times: a product that stays linear in the proofs below. */
  function Times(a: real, n: nat): real
  {
    if n == 0 then 0.0 else Times(a, n - 1) + a
  }

  lemma {:induction false} TimesIsProduct(a: real, n: nat)
    ensures Times(a, n) == a * n as real
  {
    if n > 0 {
      TimesIsProduct(a, n - 1);
      Distribute(a, (n - 1) as real, 1.0);
    }
  }

  lemma Distribute(a: real, x: real, c: real)
    ensures a * (x + c) == a * x + a * c
  {
  }

  lemma Associate(a: real, c: real, r: real)
    ensures (a * c) * r == a * (r * c)
  {
  }

  lemma MulNonNegative(x: real, y: real)
    requires x >= 0.0 && y >= 0.0
    ensures x * y >= 0.0
  {
  }

  lemma {:induction false} RowSumBounds(r: seq<real>, lo: int, hi: int, a: real, b: real)
    requires 0 <= lo <= hi <= |r|
    requires forall j :: lo <= j < hi ==> a <= r[j] <= b
    ensures Times(a, hi - lo) <= RowSum(r, lo, hi) <= Times(b, hi - lo)
    decreases hi - lo
  {
    if lo < hi {
      RowSumBounds(r, lo, hi - 1, a, b);
    }
  }

  function Area(w: Rect): real
  {
    (w.x1 - w.x0) as real * (w.y1 - w.y0) as real
  }

  lemma {:induction false} RectSumTimes(f: Field, w: Rect, a: real, b: real)
    requires Fits(f, w) && Between(f, w, a, b) && w.x0 <= w.x1
    ensures Times(Times(a, w.y1 - w.y0), w.x1 - w.x0) <= RectSum(f, w) <= Times(Times(b, w.y1 - w.y0), w.x1 - w.x0)
    decreases w.x1 - w.x0
  {
    if w.x0 < w.x1 {
      RectSumTimes(f, w.(x1 := w.x1 - 1), a, b);
      RowSumBounds(f[w.x1 - 1], w.y0, w.y1, a, b);
    }
  }

  lemma ProductOfTimes(a: real, w: Rect)
    requires w.x0 <= w.x1 && w.y0 <= w.y1
    ensures Times(Times(a, w.y1 - w.y0), w.x1 - w.x0) == a * Area(w)
  {
    var rows, cols := w.x1 - w.x0, w.y1 - w.y0;
    var t := Times(a, cols);
    TimesIsProduct(a, cols);
    TimesIsProduct(t, rows);
    assert Times(t, rows) == (a * cols as real) * rows as real;
    Associate(a, cols as real, rows as real);
    assert Area(w) == rows as real * cols as real;
  }

  lemma RectSumBounds(f: Field, w: Rect, a: real, b: real)
    requires Fits(f, w) && Between(f, w, a, b) && w.x0 <= w.x1
    ensures a * Area(w) <= RectSum(f, w) <= b * Area(w)
  {
    RectSumTimes(f, w, a, b);
    ProductOfTimes(a, w);
    ProductOfTimes(b, w);
  }

  /** `np.mean` over a non-empty rectangle. */
  function RectMean(f: Field, w: Rect): real
    requires Fits(f, w) && w.x0 < w.x1 && w.y0 < w.y1
  {
    RectSum(f, w) / Area(w)
  }

  /** A quotient by a positive area of a value within `a` and `b` times that area lies
      within `a` and `b`. */
  lemma QuotientBetween(sum: real, area: real, a: real, b: real)
    requires area > 0.0 && a * area <= sum <= b * area
    ensures a <= sum / area <= b
  {
    var q := sum / area;
    assert q * area == sum;
    assert (q - a) * area >= 0.0;
    assert (b - q) * area >= 0.0;
  }

  /** The mean of a window lies between any bounds of its cells. */
  lemma MeanBetween(f: Field, w: Rect, a: real, b: real)
    requires Fits(f, w) && w.x0 < w.x1 && w.y0 < w.y1 && Between(f, w, a, b)
    ensures a <= RectMean(f, w) <= b
  {
    RectSumBounds(f, w, a, b);
    MulNonNegative((w.x1 - w.x0) as real, (w.y1 - w.y0) as real);
    assert Area(w) > 0.0;
    QuotientBetween(RectSum(f, w), Area(w), a, b);
  }

  // ---------------------------------------------------------------------------
  // The grid

  /** `UrbanGrid`. The three arrays are updated in place. */
  class UrbanGrid {
    const size: nat
    const congestion: array2<real>
    const obstacles: array2<bool>
    const trafficLights: array2<int>
    const congestionUpdateRate: real
    const trafficLightCycle: int
    var currentCycle: int

    ghost predicate Valid()
      reads this
    {
      && congestion.Length0 == size && congestion.Length1 == size
      && obstacles.Length0 == size && obstacles.Length1 == size
      && trafficLights.Length0 == size && trafficLights.Length1 == size
    }

    /** A fresh grid: no congestion, no incidents, a light in state 1 at every intersection. */
    constructor (size: nat, congestionUpdateRate: real, trafficLightCycle: int)
      ensures Valid()
      ensures this.size == size && this.congestionUpdateRate == congestionUpdateRate
      ensures this.trafficLightCycle == trafficLightCycle && currentCycle == 0
      ensures forall i, j :: 0 <= i < size && 0 <= j < size ==>
        && congestion[i, j] == 0.0 && !obstacles[i, j]
        && trafficLights[i, j] == if IsIntersection(i, j) then 1 else 0
      ensures fresh(congestion) && fresh(obstacles) && fresh(trafficLights)
    {
      this.size := size;
      this.congestionUpdateRate := congestionUpdateRate;
      this.trafficLightCycle := trafficLightCycle;
      congestion := new real[size, size]((i, j) => 0.0);
      obstacles := new bool[size, size]((i, j) => false);
      trafficLights := new int[size, size]((i, j) => 0);
      currentCycle := 0;
      new;
      InitTrafficLights();
      forall i, j | 0 <= i < size && 0 <= j < size && IsIntersection(i, j)
        ensures InitialState(i, j) == 1
      {
        IntersectionsStartNorthSouth(i, j);
      }
    }

    /** `init_traffic_lights`: writes `InitialState` at every intersection and nothing elsewhere. */
    method InitTrafficLights()
      requires Valid()
      modifies trafficLights
      ensures forall i, j :: 0 <= i < size && 0 <= j < size ==>
        trafficLights[i, j] == if IsIntersection(i, j) then InitialState(i, j) else old(trafficLights[i, j])
    {
      var i := 1;
      while i < size
        invariant 1 <= i <= size + 1 && i % 2 == 1
        invariant forall a, b :: 0 <= a < size && 0 <= b < size ==>
          trafficLights[a, b] == if IsIntersection(a, b) && a < i then InitialState(a, b) else old(trafficLights[a, b])
      {
        var j := 1;
        while j < size
          invariant 1 <= j <= size + 1 && j % 2 == 1
          invariant forall a, b :: 0 <= a < size && 0 <= b < size ==>
            trafficLights[a, b] == if IsIntersection(a, b) && (a < i || (a == i && b < j))
                                   then InitialState(a, b) else old(trafficLights[a, b])
        {
          trafficLights[i, j] := InitialState(i, j);
          j := j + 2;
        }
        i := i + 2;
      }
    }

    /** `update_traffic_lights`: bumps the counter, then toggles every lit cell when the new
        counter is a multiple of the cycle. Python's `%` by a zero cycle raises, hence the
        precondition. */
    method UpdateTrafficLights()
      requires Valid() && trafficLightCycle != 0
      modifies this, trafficLights
      ensures currentCycle == old(currentCycle) + 1
      ensures forall i, j :: 0 <= i < size && 0 <= j < size ==>
        trafficLights[i, j] == Tick(old(trafficLights[i, j]), currentCycle, trafficLightCycle)
    {
      currentCycle := currentCycle + 1;
      if currentCycle % trafficLightCycle == 0 {
        var i := 0;
        while i < size
          invariant 0 <= i <= size
          invariant currentCycle == old(currentCycle) + 1
          invariant forall a, b :: 0 <= a < size && 0 <= b < size ==>
            trafficLights[a, b] == if a < i then Toggle(old(trafficLights[a, b])) else old(trafficLights[a, b])
        {
          var j := 0;
          while j < size
            invariant 0 <= j <= size
            invariant currentCycle == old(currentCycle) + 1
            invariant forall a, b :: 0 <= a < size && 0 <= b < size ==>
              trafficLights[a, b] == if a < i || (a == i && b < j) then Toggle(old(trafficLights[a, b]))
                                     else old(trafficLights[a, b])
          {
            if trafficLights[i, j] > 0 {
              trafficLights[i, j] := 3 - trafficLights[i, j];
            }
            j := j + 1;
          }
          i := i + 1;
        }
      }
    }

    /** `add_obstacle`: marks exactly cell `(x, y)`. */
    method AddObstacle(x: int, y: int)
      requires Valid() && InBounds(Pos(x, y), size)
      modifies obstacles
      ensures obstacles[x, y]
      ensures forall i, j :: 0 <= i < size && 0 <= j < size && (i, j) != (x, y) ==> obstacles[i, j] == old(obstacles[i, j])
    {
      obstacles[x, y] := true;
    }

    /** `remove_obstacle`: clears exactly cell `(x, y)`. */
    method RemoveObstacle(x: int, y: int)
      requires Valid() && InBounds(Pos(x, y), size)
      modifies obstacles
      ensures !obstacles[x, y]
      ensures forall i, j :: 0 <= i < size && 0 <= j < size && (i, j) != (x, y) ==> obstacles[i, j] == old(obstacles[i, j])
    {
      obstacles[x, y] := false;
    }

    /** `reset_congestion`, with the uniform draw from [0, 0.3) passed in as `draw`. */
    method ResetCongestion(draw: Field)
      requires Valid() && Square(draw, size)
      requires forall i, j :: 0 <= i < size && 0 <= j < size ==> 0.0 <= draw[i][j] < 0.3
      modifies congestion
      ensures Snapshot(congestion) == draw
      ensures forall i, j :: 0 <= i < size && 0 <= j < size ==> 0.0 <= congestion[i, j] < 0.3
    {
      forall i, j | 0 <= i < size && 0 <= j < size {
        congestion[i, j] := draw[i][j];
      }
      FieldsEqual(Snapshot(congestion), draw, size);
    }

    /** The largest cell of `congestion` (`np.max`). */
    method MaxCongestion() returns (m: real)
      requires Valid() && size > 0
      ensures m == FieldMax(Snapshot(congestion))
    {
      ghost var wi, wj := 0, 0;
      m := congestion[0, 0];
      var i := 0;
      while i < size
        invariant 0 <= i <= size
        invariant 0 <= wi < size && 0 <= wj < size && congestion[wi, wj] == m
        invariant forall a, b :: 0 <= a < i && 0 <= b < size ==> congestion[a, b] <= m
        invariant i == 0 ==> m == congestion[0, 0]
      {
        var j := 0;
        while j < size
          invariant 0 <= j <= size
          invariant 0 <= wi < size && 0 <= wj < size && congestion[wi, wj] == m
          invariant forall a, b :: 0 <= a < size && 0 <= b < size && (a < i || (a == i && b < j)) ==> congestion[a, b] <= m
          invariant i == 0 && j == 0 ==> m == congestion[0, 0]
        {
          if congestion[i, j] > m {
            m := congestion[i, j];
            wi, wj := i, j;
          }
          j := j + 1;
        }
        i := i + 1;
      }
      var f := Snapshot(congestion);
      var top := FieldMax(f);
      var ti, tj :| 0 <= ti < |f| && 0 <= tj < |f[ti]| && f[ti][tj] == top;
      assert f[wi][wj] == m;
    }

    /** The heat map: how many of `positions` fall on each cell. */
    method Heatmap(positions: seq<Pos>) returns (heat: array2<real>)
      requires forall k :: 0 <= k < |positions| ==> InBounds(positions[k], size)
      requires Valid()
      ensures fresh(heat) && heat.Length0 == size && heat.Length1 == size
      ensures forall i, j :: 0 <= i < size && 0 <= j < size ==> heat[i, j] == Count(positions, Pos(i, j)) as real
    {
      heat := new real[size, size]((i, j) => 0.0);
      var k := 0;
      while k < |positions|
        invariant 0 <= k <= |positions|
        invariant forall i, j :: 0 <= i < size && 0 <= j < size ==> heat[i, j] == Count(positions[..k], Pos(i, j)) as real
      {
        var p := positions[k];
        assert positions[..k + 1][..k] == positions[..k];
        heat[p.x, p.y] := heat[p.x, p.y] + 1.0;
        k := k + 1;
      }
      assert positions[..k] == positions;
    }

    /** The vectorised blend `(1 - rate) * congestion + rate * heat`, cell by cell. */
    method BlendCells(heat: array2<real>)
      requires Valid() && heat.Length0 == size && heat.Length1 == size && heat != congestion
      modifies congestion
      ensures forall i, j :: 0 <= i < size && 0 <= j < size ==>
        congestion[i, j] == Mix(old(congestion[i, j]), heat[i, j], congestionUpdateRate)
    {
      var rate := congestionUpdateRate;
      forall i, j | 0 <= i < size && 0 <= j < size {
        congestion[i, j] := Mix(congestion[i, j], heat[i, j], rate);
      }
    }

    method BlendCongestion(positions: seq<Pos>, heat: array2<real>)
      requires Valid() && heat.Length0 == size && heat.Length1 == size && heat != congestion
      requires forall i, j :: 0 <= i < size && 0 <= j < size ==> heat[i, j] == Count(positions, Pos(i, j)) as real
      modifies congestion
      ensures Snapshot(congestion) == Blend(old(Snapshot(congestion)), positions, congestionUpdateRate)
    {
      ghost var f0 := Snapshot(congestion);
      BlendCells(heat);
      ghost var f1 := Snapshot(congestion);
      forall i, j | 0 <= i < size && 0 <= j < size
        ensures f1[i][j] == Mix(f0[i][j], Count(positions, Pos(i, j)) as real, congestionUpdateRate)
      {
        assert f1[i][j] == congestion[i, j];
        assert f0[i][j] == old(congestion[i, j]);
      }
      BlendMatches(f0, f1, positions, congestionUpdateRate, size);
    }

    method NormaliseCongestion()
      requires Valid() && size > 0
      modifies congestion
      ensures Snapshot(congestion) == Normalise(old(Snapshot(congestion)))
    {
      ghost var f0 := Snapshot(congestion);
      var m := MaxCongestion();
      if m > 0.0 {
        forall i, j | 0 <= i < size && 0 <= j < size {
          congestion[i, j] := congestion[i, j] / m;
        }
      }
      FieldsEqual(Snapshot(congestion), Normalise(f0), size);
    }

    /** `update_congestion(positions)`. Python's `np.max` of an empty grid raises, hence `size > 0`;
        positions index the arrays and must lie on the grid. */
    method UpdateCongestion(positions: seq<Pos>)
      requires Valid() && size > 0
      requires forall k :: 0 <= k < |positions| ==> InBounds(positions[k], size)
      modifies congestion
      ensures Snapshot(congestion) == CongestionAfter(old(Snapshot(congestion)), positions, congestionUpdateRate)
    {
      var heat := Heatmap(positions);
      BlendCongestion(positions, heat);
      NormaliseCongestion();
    }

    /** `get_congestion_window(x, y, window_size)`: the mean over the window clamped to the grid.
        A negative window or an off-grid cell makes the source average an empty or a wrapped
        slice; both are excluded. */
    function GetCongestionWindow(x: int, y: int, windowSize: int): (m: real)
      requires Valid() && InBounds(Pos(x, y), size) && windowSize >= 0
      reads this, congestion
      ensures InUnit(Snapshot(congestion)) ==> 0.0 <= m <= 1.0
    {
      WindowRectSpec(size, x, y, windowSize);
      var f := Snapshot(congestion);
      var w := WindowRect(size, x, y, windowSize);
      assert Fits(f, w);
      if InUnit(f) then
        MeanBetween(f, w, 0.0, 1.0);
        RectMean(f, w)
      else
        RectMean(f, w)
    }
  }
}
