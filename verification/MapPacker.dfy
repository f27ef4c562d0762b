/** How the extractor stores the heights of a tile (contrib/extractor/System.cpp) and how the
    server computes heights from what was stored (src/game/GridMap.cpp), over real numbers. */
module MapPacker {
  import opened Reals

  datatype Config = Config(
    allowHeightLimit: bool, useMinHeight: real, allowFloatToInt: bool,
    int8Limit: real, int16Limit: real, flatDelta: real, flatLiquidDelta: real)

  const DEFAULTS: Config := Config(true, -500.0, true, 2.0, 2048.0, 0.005, 0.001)

  const GRID: nat := 128

  /** The four ways to store heights, as the flags of the height header. */
  const AS_FLOAT: nat := 0
  const NO_HEIGHT: nat := 1
  const AS_INT16: nat := 2
  const AS_INT8: nat := 4

  /** Chosen by the spread of the heights. */
  function HeightFlags(cfg: Config, lo: real, hi: real): nat {
    if hi == lo || (cfg.allowFloatToInt && hi - lo < cfg.flatDelta) then NO_HEIGHT
    else if !cfg.allowFloatToInt then AS_FLOAT
    else if hi - lo < cfg.int8Limit then AS_INT8
    else if hi - lo < cfg.int16Limit then AS_INT16
    else AS_FLOAT
  }

  /** The largest stored number. */
  function Levels(flags: nat): real {
    if flags == AS_INT8 then 255.0 else 65535.0
  }

  function Step(flags: nat, lo: real, hi: real): real
    requires lo < hi
  {
    Levels(flags) / (hi - lo)
  }

  function Quantise(h: real, lo: real, step: real): int {
    ((h - lo) * step + 0.5).Floor
  }

  // ----- the server's side -----

  /** The corners of one cell and its middle point. */
  datatype Cell = Cell(h1: real, h2: real, h3: real, h4: real, mid: real)

  /** The height at a point of a cell, on the plane of the triangle the point is in. */
  function Interpolate(c: Cell, x: real, y: real): real {
    var h5 := 2.0 * c.mid;
    if x + y < 1.0 then
      if x > y then (c.h2 - c.h1) * x + (h5 - c.h1 - c.h2) * y + c.h1
      else (h5 - c.h1 - c.h3) * x + (c.h3 - c.h1) * y + c.h1
    else
      if x > y then (c.h2 + c.h4 - h5) * x + (c.h4 - c.h2) * y + (h5 - c.h4)
      else (c.h4 - c.h3) * x + (c.h3 + c.h4 - h5) * y + (h5 - c.h4)
  }

  function Each(f: real -> real, c: Cell): Cell {
    Cell(f(c.h1), f(c.h2), f(c.h3), f(c.h4), f(c.mid))
  }

  /** A height as a stored number. */
  function Quantiser(lo: real, step: real): real -> real {
    h => Quantise(h, lo, step) as real
  }

  /** A stored number as a height. */
  function Unpacker(lo: real, unit: real): real -> real {
    q => q * unit + lo
  }

  function Plane(x: real, y: real): Cell -> real {
    c => Interpolate(c, x, y)
  }

  /** What the server answers for a point of a cell that was stored with the flags. */
  function Served(flags: nat, lo: real, hi: real, c: Cell, x: real, y: real): real
    requires flags in {AS_INT8, AS_INT16} ==> lo < hi
  {
    if flags == NO_HEIGHT then lo
    else if flags == AS_FLOAT then Plane(x, y)(c)
    else if lo < hi then
      Unpacker(lo, (hi - lo) / Levels(flags))(Plane(x, y)(Each(Quantiser(lo, Step(flags, lo, hi)), c)))
    else lo
  }

  // ----- one height -----

  /** Rounding to the nearest of equal steps, seen in units of the step. */
  lemma Nearest(z: real, levels: int)
    requires 0.0 <= z <= levels as real
    ensures var q := (z + 0.5).Floor; 0 <= q <= levels && -0.5 <= q as real - z <= 0.5
  {
  }

  /** A step and its unit: the levels divide the range evenly. */
  ghost predicate Steps(lo: real, hi: real, levels: int, step: real, unit: real) {
    step > 0.0 && unit > 0.0 && step * unit == 1.0 && (hi - lo) * step == levels as real
  }

  lemma StepsOf(d: real, n: real)
    requires d > 0.0 && n > 0.0
    ensures n / d > 0.0 && d / n > 0.0 && n / d * (d / n) == 1.0 && d * (n / d) == n && d / n / 2.0 == d / (2.0 * n)
  {
    Positive(n, d);
    Positive(d, n);
    assert d * (n / d) == n;
    assert n / d * (d / n) == n / d * d / n;
    Half(d, n);
  }

  lemma Positive(n: real, d: real)
    requires n > 0.0 && d > 0.0
    ensures n / d > 0.0
  {
  }

  lemma Half(d: real, n: real)
    requires n > 0.0
    ensures d / n / 2.0 == d / (2.0 * n)
  {
    assert d / n / 2.0 * (2.0 * n) == d;
  }

  lemma Share(d: real, range: real, step: real, n: real)
    requires 0.0 <= d <= range && step > 0.0 && range * step == n
    ensures 0.0 <= d * step <= n
  {
    MulLe(0.0, d, step);
    MulLe(d, range, step);
  }

  /** A height between the bounds is stored without overflow, and unpacks to within half a step. */
  lemma QuantiseError(h: real, lo: real, hi: real, levels: int, step: real, unit: real)
    requires lo <= h <= hi && Steps(lo, hi, levels, step, unit)
    ensures 0 <= Quantise(h, lo, step) <= levels
    ensures -unit / 2.0 <= Quantise(h, lo, step) as real * unit + lo - h <= unit / 2.0
  {
    var d := h - lo;
    var z := d * step;
    Share(d, hi - lo, step, levels as real);
    Nearest(z, levels);
    var q := Quantise(h, lo, step);
    assert z * unit == d * (step * unit) == d;
    var r := q as real;
    assert r * unit - d == (r - z) * unit;
    MulLe(r - z, 0.5, unit);
    MulLe(-0.5, r - z, unit);
  }

  // ----- one point -----

  /** The weights of corners and middle point in a point's height. */
  datatype Weights = Weights(w1: real, w2: real, w3: real, w4: real, w5: real)

  function WeightsAt(x: real, y: real): Weights {
    if x + y < 1.0 then
      if x > y then Weights(1.0 - x - y, x - y, 0.0, 0.0, 2.0 * y)
      else Weights(1.0 - x - y, 0.0, y - x, 0.0, 2.0 * x)
    else
      if x > y then Weights(0.0, x - y, 0.0, x + y - 1.0, 2.0 * (1.0 - x))
      else Weights(0.0, 0.0, y - x, x + y - 1.0, 2.0 * (1.0 - y))
  }

  function Mix(w: Weights, c: Cell): real {
    w.w1 * c.h1 + w.w2 * c.h2 + w.w3 * c.h3 + w.w4 * c.h4 + w.w5 * c.mid
  }

  predicate Convex(w: Weights) {
    && w.w1 >= 0.0 && w.w2 >= 0.0 && w.w3 >= 0.0 && w.w4 >= 0.0 && w.w5 >= 0.0
    && w.w1 + w.w2 + w.w3 + w.w4 + w.w5 == 1.0
  }

  /** Every point's height is an average of corners and middle point. */
  lemma InterpolateMixes(c: Cell, x: real, y: real)
    requires 0.0 <= x < 1.0 && 0.0 <= y < 1.0
    ensures Convex(WeightsAt(x, y)) && Interpolate(c, x, y) == Mix(WeightsAt(x, y), c)
  {
  }

  predicate CellWithin(c: Cell, lo: real, hi: real) {
    lo <= c.h1 <= hi && lo <= c.h2 <= hi && lo <= c.h3 <= hi && lo <= c.h4 <= hi && lo <= c.mid <= hi
  }

  function Minus(c: Cell, d: Cell): Cell {
    Cell(c.h1 - d.h1, c.h2 - d.h2, c.h3 - d.h3, c.h4 - d.h4, c.mid - d.mid)
  }

  /** An average lies between the bounds of what it averages. */
  lemma MixBounds(w: Weights, c: Cell, lo: real, hi: real)
    requires Convex(w) && CellWithin(c, lo, hi)
    ensures lo <= Mix(w, c) <= hi
  {
    Above(w.w1, w.w2, w.w3, w.w4, w.w5, c.h1, c.h2, c.h3, c.h4, c.mid, lo);
    Above(w.w1, w.w2, w.w3, w.w4, w.w5, -c.h1, -c.h2, -c.h3, -c.h4, -c.mid, -hi);
  }

  lemma Above(w1: real, w2: real, w3: real, w4: real, w5: real,
              h1: real, h2: real, h3: real, h4: real, h5: real, lo: real)
    requires w1 >= 0.0 && w2 >= 0.0 && w3 >= 0.0 && w4 >= 0.0 && w5 >= 0.0 && w1 + w2 + w3 + w4 + w5 == 1.0
    requires lo <= h1 && lo <= h2 && lo <= h3 && lo <= h4 && lo <= h5
    ensures lo <= w1 * h1 + w2 * h2 + w3 * h3 + w4 * h4 + w5 * h5
  {
    NotNegative(w1, h1 - lo);
    NotNegative(w2, h2 - lo);
    NotNegative(w3, h3 - lo);
    NotNegative(w4, h4 - lo);
    NotNegative(w5, h5 - lo);
    assert w5 == 1.0 - w1 - w2 - w3 - w4;
  }

  lemma NotNegative(w: real, d: real)
    requires w >= 0.0 && d >= 0.0
    ensures w * d >= 0.0
  {
  }

  lemma MixMinus(w: Weights, c: Cell, d: Cell)
    ensures Mix(w, Minus(c, d)) == Mix(w, c) - Mix(w, d)
  {
  }

  lemma MixUnpack(w: Weights, c: Cell, lo: real, unit: real)
    requires Convex(w)
    ensures Mix(w, Each(Unpacker(lo, unit), c)) == Mix(w, c) * unit + lo
  {
    assert w.w1 * (c.h1 * unit + lo) == w.w1 * c.h1 * unit + w.w1 * lo;
    assert w.w2 * (c.h2 * unit + lo) == w.w2 * c.h2 * unit + w.w2 * lo;
    assert w.w3 * (c.h3 * unit + lo) == w.w3 * c.h3 * unit + w.w3 * lo;
    assert w.w4 * (c.h4 * unit + lo) == w.w4 * c.h4 * unit + w.w4 * lo;
    assert w.w5 * (c.mid * unit + lo) == w.w5 * c.mid * unit + w.w5 * lo;
    assert w.w1 * lo + w.w2 * lo + w.w3 * lo + w.w4 * lo + w.w5 * lo == (w.w1 + w.w2 + w.w3 + w.w4 + w.w5) * lo;
  }

  // Three properties that hold of planes, of the unpacking and of the quantiser.

  predicate Close(u: Cell, c: Cell, off: real) {
    CellWithin(Minus(u, c), -off, off)
  }

  /** Cells close at their five points are close everywhere. */
  ghost predicate Averages(plane: Cell -> real) {
    forall u, c, off :: Close(u, c, off) ==> -off <= plane(u) - plane(c) <= off
  }

  /** Unpacking commutes with interpolation. */
  ghost predicate Commutes(plane: Cell -> real, unpack: real -> real) {
    forall q :: plane(Each(unpack, q)) == unpack(plane(q))
  }

  /** What is stored for a height unpacks to within off of it. */
  ghost predicate Near(store: real -> real, unpack: real -> real, lo: real, hi: real, off: real) {
    forall h :: lo <= h <= hi ==> -off <= unpack(store(h)) - h <= off
  }

  lemma PlaneAverages(x: real, y: real)
    requires 0.0 <= x < 1.0 && 0.0 <= y < 1.0
    ensures Averages(Plane(x, y))
  {
    var w := WeightsAt(x, y);
    forall u, c, off | Close(u, c, off) ensures -off <= Plane(x, y)(u) - Plane(x, y)(c) <= off {
      InterpolateMixes(u, x, y);
      InterpolateMixes(c, x, y);
      MixMinus(w, u, c);
      MixBounds(w, Minus(u, c), -off, off);
    }
  }

  lemma PlaneCommutes(x: real, y: real, lo: real, unit: real)
    requires 0.0 <= x < 1.0 && 0.0 <= y < 1.0
    ensures Commutes(Plane(x, y), Unpacker(lo, unit))
  {
    var w := WeightsAt(x, y);
    forall q ensures Plane(x, y)(Each(Unpacker(lo, unit), q)) == Unpacker(lo, unit)(Plane(x, y)(q)) {
      InterpolateMixes(q, x, y);
      InterpolateMixes(Each(Unpacker(lo, unit), q), x, y);
      MixUnpack(w, q, lo, unit);
    }
  }

  lemma QuantiserNear(lo: real, hi: real, levels: int, step: real, unit: real)
    requires Steps(lo, hi, levels, step, unit)
    ensures Near(Quantiser(lo, step), Unpacker(lo, unit), lo, hi, unit / 2.0)
  {
    forall h | lo <= h <= hi
      ensures -unit / 2.0 <= Unpacker(lo, unit)(Quantiser(lo, step)(h)) - h <= unit / 2.0
    {
      HeightNear(h, lo, hi, levels, step, unit);
    }
  }

  lemma HeightNear(h: real, lo: real, hi: real, levels: int, step: real, unit: real)
    requires lo <= h <= hi && Steps(lo, hi, levels, step, unit)
    ensures -unit / 2.0 <= Unpacker(lo, unit)(Quantiser(lo, step)(h)) - h <= unit / 2.0
  {
    QuantiseError(h, lo, hi, levels, step, unit);
    var q := Quantise(h, lo, step) as real;
    assert Quantiser(lo, step)(h) == q && Unpacker(lo, unit)(q) == q * unit + lo;
  }

  /** From these three: interpolating what was stored and then unpacking is off by no more than
      storing and unpacking a single height is. */
  lemma StoredError(plane: Cell -> real, store: real -> real, unpack: real -> real,
                    c: Cell, lo: real, hi: real, off: real)
    requires Averages(plane) && Commutes(plane, unpack) && Near(store, unpack, lo, hi, off) && CellWithin(c, lo, hi)
    ensures -off <= unpack(plane(Each(store, c))) - plane(c) <= off
  {
    var u := Each(unpack, Each(store, c));
    assert Close(u, c, off);
    assert plane(u) == unpack(plane(Each(store, c)));
  }

  /** How far the server may be off. */
  function ErrorBound(flags: nat, lo: real, hi: real): real {
    if flags == AS_FLOAT then 0.0
    else if flags == NO_HEIGHT then hi - lo
    else (hi - lo) / (2.0 * Levels(flags))
  }

  lemma PackedError(flags: nat, c: Cell, lo: real, hi: real, x: real, y: real)
    requires flags == AS_INT8 || flags == AS_INT16
    requires CellWithin(c, lo, hi) && lo < hi && 0.0 <= x < 1.0 && 0.0 <= y < 1.0
    ensures -ErrorBound(flags, lo, hi) <= Served(flags, lo, hi, c, x, y) - Plane(x, y)(c) <= ErrorBound(flags, lo, hi)
  {
    var step, unit := Step(flags, lo, hi), (hi - lo) / Levels(flags);
    StepsOf(hi - lo, Levels(flags));
    QuantiserNear(lo, hi, if flags == AS_INT8 then 255 else 65535, step, unit);
    PlaneAverages(x, y);
    PlaneCommutes(x, y, lo, unit);
    StoredError(Plane(x, y), Quantiser(lo, step), Unpacker(lo, unit), c, lo, hi, unit / 2.0);
  }

  /** At every point of every cell the server's height differs from the height on the unpacked
      planes by no more than half a step, or than the spread of a tile stored as flat. */
  lemma ServedError(cfg: Config, c: Cell, lo: real, hi: real, x: real, y: real)
    requires CellWithin(c, lo, hi) && 0.0 <= x < 1.0 && 0.0 <= y < 1.0
    ensures
      var flags := HeightFlags(cfg, lo, hi);
      -ErrorBound(flags, lo, hi) <= Served(flags, lo, hi, c, x, y) - Plane(x, y)(c) <= ErrorBound(flags, lo, hi)
  {
    var flags := HeightFlags(cfg, lo, hi);
    if flags == NO_HEIGHT {
      FlatError(c, lo, hi, x, y);
    } else if flags == AS_INT8 || flags == AS_INT16 {
      PackedError(flags, c, lo, hi, x, y);
    }
  }

  lemma FlatError(c: Cell, lo: real, hi: real, x: real, y: real)
    requires CellWithin(c, lo, hi) && 0.0 <= x < 1.0 && 0.0 <= y < 1.0
    ensures lo - hi <= lo - Plane(x, y)(c) <= hi - lo
  {
    InterpolateMixes(c, x, y);
    MixBounds(WeightsAt(x, y), c, lo, hi);
  }

  /** With the default limits that is always less than 1.6 hundredths of a unit. */
  lemma DefaultError(lo: real, hi: real)
    requires lo <= hi
    ensures ErrorBound(HeightFlags(DEFAULTS, lo, hi), lo, hi) < 0.016
  {
  }

  // ----- liquids -----

  /** The smallest window around the cells with liquid, as the header gives it: in bytes. */
  datatype Window = Window(offsetX: nat, offsetY: nat, width: nat, height: nat)

  /** The bounds found by the walk over all cells, from their initial values. */
  datatype Box = Box(minX: nat, minY: nat, maxX: nat, maxY: nat)

  const NO_BOX: Box := Box(255, 255, 0, 0)

  function WindowOf(b: Box): Window {
    Window(b.minX % 256, b.minY % 256, (b.maxX as int - b.minX + 1) % 256, (b.maxY as int - b.minY + 1) % 256)
  }

  predicate InsideGrid(w: Window) {
    w.offsetX + w.width <= GRID && w.offsetY + w.height <= GRID
  }

  predicate Around(b: Box, y: nat, x: nat) {
    b.minX <= x <= b.maxX && b.minY <= y <= b.maxY
  }

  /** A box around some cells of the grid, no larger than needed. */
  ghost predicate Smallest(b: Box, shown: set<(nat, nat)>) {
    && (forall y, x :: (y, x) in shown ==> Around(b, y, x))
    && (shown == {} ==> b == NO_BOX)
    && (shown != {} ==>
          && (exists y :: (y, b.minX) in shown) && (exists y :: (y, b.maxX) in shown)
          && (exists x :: (b.minY, x) in shown) && (exists x :: (b.maxY, x) in shown))
  }

  /** Around at least one cell nothing is cut off when the window is put in bytes. */
  lemma WindowExact(b: Box, shown: set<(nat, nat)>)
    requires Smallest(b, shown) && shown != {} && (forall y, x :: (y, x) in shown ==> y < GRID && x < GRID)
    ensures b.minX <= b.maxX < GRID && b.minY <= b.maxY < GRID
    ensures WindowOf(b) == Window(b.minX, b.minY, b.maxX - b.minX + 1, b.maxY - b.minY + 1)
  {
    var y :| (y, b.minX) in shown;
    var x :| (b.minY, x) in shown;
    assert Around(b, y, b.minX) && Around(b, b.minY, x);
    var y' :| (y', b.maxX) in shown;
    var x' :| (b.maxY, x') in shown;
  }

  /** The window lies inside the grid exactly when some cell shows liquid. */
  lemma WindowInsideIff(b: Box, shown: set<(nat, nat)>)
    requires Smallest(b, shown) && (forall y, x :: (y, x) in shown ==> y < GRID && x < GRID)
    ensures InsideGrid(WindowOf(b)) <==> shown != {}
  {
    if shown != {} {
      WindowExact(b, shown);
    }
  }

  /** The rows of a window, one after the other. */
  function Rows(level: (nat, nat) -> real, w: Window, rows: nat): (r: seq<real>)
    ensures |r| == rows * w.width
  {
    if rows == 0 then []
    else Rows(level, w, rows - 1) + seq(w.width, k requires 0 <= k => level(w.offsetY + rows - 1, w.offsetX + k))
  }

  /** The server's level of a cell: outside of the window there is none. */
  function LevelAt(stored: seq<real>, w: Window, y: nat, x: nat): (r: (bool, real))
    requires |stored| == w.height * w.width
  {
    if y < w.offsetY || y - w.offsetY >= w.height || x < w.offsetX || x - w.offsetX >= w.width then (false, 0.0)
    else
      IndexInside(y - w.offsetY, x - w.offsetX, w.height, w.width);
      (true, stored[(y - w.offsetY) * w.width + (x - w.offsetX)])
  }

  lemma IndexInside(r: nat, k: nat, rows: nat, width: nat)
    requires r < rows && k < width
    ensures 0 <= r * width + k < rows * width
  {
    assert (r + 1) * width <= rows * width by {
      assert (rows - (r + 1)) * width >= 0;
    }
  }

  lemma {:induction false} RowsAt(level: (nat, nat) -> real, w: Window, rows: nat, r: nat, k: nat)
    requires r < rows && k < w.width
    ensures r * w.width + k < rows * w.width
    ensures Rows(level, w, rows)[r * w.width + k] == level(w.offsetY + r, w.offsetX + k)
  {
    IndexInside(r, k, rows, w.width);
    if r == rows - 1 {
    } else {
      IndexInside(r, k, rows - 1, w.width);
      RowsAt(level, w, rows - 1, r, k);
    }
  }

  /** Every cell that shows liquid keeps its level from the extractor to the server. */
  lemma LevelsKept(level: (nat, nat) -> real, b: Box, shown: set<(nat, nat)>, y: nat, x: nat)
    requires Smallest(b, shown) && (forall y, x :: (y, x) in shown ==> y < GRID && x < GRID) && (y, x) in shown
    ensures var w := WindowOf(b); LevelAt(Rows(level, w, w.height), w, y, x) == (true, level(y, x))
  {
    var w := WindowOf(b);
    WindowExact(b, shown);
    assert Around(b, y, x);
    RowsAt(level, w, w.height, y - w.offsetY, x - w.offsetX);
  }
}
