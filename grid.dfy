/**
 * The pure half of js/utils.js: grid snapping and the packing capacity formula.
 * `Math.round` rounds halves upwards, so it is `(x + 1/2).Floor`; `Math.floor` is `.Floor`.
 */
module Grid {
  import opened Common
  import opened Config

  /** JavaScript's `Math.round`. */
  function Round(x: real): (k: int)
    ensures k as real - 0.5 <= x < k as real + 0.5
  {
    (x + 0.5).Floor
  }

  lemma {:induction false} RoundOfInteger(k: int)
    ensures Round(k as real) == k
  {
    assert k as real - 0.5 <= k as real < k as real + 0.5;
    var r := Round(k as real);
    assert r as real - 0.5 <= k as real < r as real + 0.5;
  }

  /**
   * `snapToGrid`: a whole multiple of the grid size within half a cell of v, i.e. the nearest
   * multiple, halves going up.
   */
  function SnapToGrid(v: real): (r: real)
    ensures (r / GridSize()).Floor as real * GridSize() == r
    ensures v - GridSize() / 2.0 < r <= v + GridSize() / 2.0
  {
    var k := Round(v / GridSize());
    WholeMultiple(k);
    NearestMultiple(v, k);
    k as real * GridSize()
  }

  /** k grid cells is a whole number of grid cells. */
  lemma WholeMultiple(k: int)
    ensures (k as real * GridSize() / GridSize()).Floor as real * GridSize() == k as real * GridSize()
  {
    assert k as real * GridSize() / GridSize() == k as real;
  }

  /** Rounding v / GRID_SIZE to k puts k grid cells within half a cell of v. */
  lemma NearestMultiple(v: real, k: int)
    requires k as real - 0.5 <= v / GridSize() < k as real + 0.5
    ensures v - GridSize() / 2.0 < k as real * GridSize() <= v + GridSize() / 2.0
  {
    var g := GridSize();
    assert (v / g) * g == v;
    assert (k as real - 0.5) * g <= (v / g) * g;
    assert (v / g) * g < (k as real + 0.5) * g;
  }

  /** Snapping a multiple of the grid size leaves it where it is. */
  lemma {:induction false} SnapOfGridPoint(k: int)
    ensures SnapToGrid(k as real * GridSize()) == k as real * GridSize()
  {
    assert k as real * GridSize() / GridSize() == k as real;
    RoundOfInteger(k);
  }

  /** `snapToGrid` is idempotent. */
  lemma {:induction false} SnapIdempotent(v: real)
    ensures SnapToGrid(SnapToGrid(v)) == SnapToGrid(v)
  {
    var k := Round(v / GridSize());
    assert SnapToGrid(v) == k as real * GridSize();
    SnapOfGridPoint(k);
  }

  /** The grid index of a snapped value is the index the value was snapped to. */
  lemma {:induction false} GridIndexOfSnapped(v: real)
    ensures Round(SnapToGrid(v) / GridSize()) == Round(v / GridSize())
  {
    var k := Round(v / GridSize());
    assert SnapToGrid(v) / GridSize() == k as real;
    RoundOfInteger(k);
  }

  /** `snapCoordinatesToGrid`: x and y are snapped independently. */
  function SnapCoordinatesToGrid(x: real, y: real): (p: Point)
    ensures p.x == SnapToGrid(x) && p.y == SnapToGrid(y)
  {
    Point(SnapToGrid(x), SnapToGrid(y))
  }

  /** The result of `calculatePlacementCapacity`. */
  datatype Capacity = Capacity(cols: int, rows: int, total: int)

  /** `Math.floor((avail + gap) / (size + gap))`: how many footprints fit along one axis. */
  function FitCount(avail: real, size: real, gap: real): int
    requires size + gap != 0.0
  {
    ((avail + gap) / (size + gap)).Floor
  }

  /** `n` footprints of length `size` with `n - 1` gaps of `gap` between them fit in `avail`. */
  predicate Fits(n: int, avail: real, size: real, gap: real) {
    n as real * size + (n - 1) as real * gap <= avail
  }

  /** `calculatePlacementCapacity`. */
  function CalculatePlacementCapacity(areaWidth: real, areaHeight: real,
                                      buildingWidth: real, buildingHeight: real,
                                      horizontalSpacing: real, verticalSpacing: real): (c: Capacity)
    requires buildingWidth + horizontalSpacing != 0.0
    requires buildingHeight + verticalSpacing != 0.0
    ensures c.cols == FitCount(areaWidth, buildingWidth, horizontalSpacing)
    ensures c.rows == FitCount(areaHeight, buildingHeight, verticalSpacing)
    ensures c.total >= 0
    ensures c.cols >= 0 && c.rows >= 0 ==> c.total == c.cols * c.rows
    ensures (c.cols < 0) != (c.rows < 0) ==> c.total == 0
    ensures c.total == if c.cols * c.rows > 0 then c.cols * c.rows else 0
  {
    var cols := FitCount(areaWidth, buildingWidth, horizontalSpacing);
    var rows := FitCount(areaHeight, buildingHeight, verticalSpacing);
    var product := cols * rows;
    assert (cols < 0) != (rows < 0) ==> product <= 0 by {
      if cols < 0 && rows >= 0 { MulNonPositive(cols, rows); }
      if rows < 0 && cols >= 0 { MulNonPositive(rows, cols); }
    }
    Capacity(cols, rows, if product > 0 then product else 0)
  }

  lemma MulNonPositive(a: int, b: int)
    requires a < 0 && b >= 0
    ensures a * b <= 0
  {
  }

  /** `a <= b / c` for positive `c` is `a * c <= b`. */
  lemma {:induction false} ScaleLe(a: real, b: real, c: real)
    requires c > 0.0
    ensures a <= b / c <==> a * c <= b
  {
    assert (b / c) * c == b;
    if a <= b / c {
      assert a * c <= (b / c) * c;
    } else {
      assert a * c > (b / c) * c;
    }
  }

  /**
   * The capacity formula solves the packing inequality: FitCount is the largest `n`
   * with `n*size + (n-1)*gap <= avail`.
   */
  lemma {:induction false} FitCountIsLargestFit(avail: real, size: real, gap: real)
    requires avail >= 0.0 && size > 0.0 && gap >= 0.0
    ensures FitCount(avail, size, gap) >= 0
    ensures Fits(FitCount(avail, size, gap), avail, size, gap)
    ensures !Fits(FitCount(avail, size, gap) + 1, avail, size, gap)
    ensures forall m: int :: m > FitCount(avail, size, gap) ==> !Fits(m, avail, size, gap)
  {
    var n := FitCount(avail, size, gap);
    FitCountFits(avail, size, gap);
    ScaleLe(n as real + 1.0, avail + gap, size + gap);
    assert (n as real + 1.0) * (size + gap) > avail + gap;
    forall m: int | m > n
      ensures !Fits(m, avail, size, gap)
    {
      var d := (m - n - 1) as real;
      assert d >= 0.0;
      assert d * (size + gap) >= 0.0;
      assert m as real * size + (m - 1) as real * gap
          == (n as real + 1.0) * (size + gap) - gap + d * (size + gap);
    }
  }

  /** The count `calculatePlacementCapacity` computes is never negative, and that many fit. */
  lemma FitCountFits(avail: real, size: real, gap: real)
    requires avail >= 0.0 && size > 0.0 && gap >= 0.0
    ensures FitCount(avail, size, gap) >= 0
    ensures Fits(FitCount(avail, size, gap), avail, size, gap)
  {
    var n := FitCount(avail, size, gap);
    var q := (avail + gap) / (size + gap);
    assert n as real <= q < n as real + 1.0;
    ScaleLe(n as real, avail + gap, size + gap);
    assert n as real * (size + gap) <= avail + gap;
    assert q >= 0.0 by { ScaleLe(0.0, avail + gap, size + gap); }
  }
}
