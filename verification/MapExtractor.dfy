/** The packing of one tile in the grids the extractor keeps (contrib/extractor/System.cpp), and
    the server's look-ups in what was packed (src/game/GridMap.cpp). */
module MapExtractor {
  import opened Options
  import opened MapPacker

  /** A height as it is after the limit for deep sea was applied. */
  function Limited(cfg: Config, h: real): real {
    if cfg.allowHeightLimit && h < cfg.useMinHeight then cfg.useMinHeight else h
  }

  datatype HeightHeader = HeightHeader(flags: nat, gridHeight: real, gridMaxHeight: real)

  datatype AreaHeader = AreaHeader(noArea: bool, gridArea: nat)

  datatype LiquidHeader = LiquidHeader(noType: bool, noHeight: bool, kind: nat, window: Window, level: real)

  ghost predicate Within(a: array2<real>, lo: real, hi: real)
    reads a
  {
    forall y, x :: 0 <= y < a.Length0 && 0 <= x < a.Length1 ==> lo <= a[y, x] <= hi
  }

  ghost predicate Holds(a: array2<real>, h: real)
    reads a
  {
    exists y, x :: 0 <= y < a.Length0 && 0 <= x < a.Length1 && a[y, x] == h
  }

  /** A walk over a grid, row by row, has been at cell y, x before it comes to cell r, k. */
  predicate Before(y: int, x: int, r: int, k: int) {
    y < r || (y == r && x < k)
  }

  /** Widens bounds to hold all heights of a grid too, and no further. */
  method Widen(a: array2<real>, lo0: real, hi0: real) returns (lo: real, hi: real)
    ensures lo <= lo0 && hi0 <= hi && Within(a, lo, hi)
    ensures (lo == lo0 || Holds(a, lo)) && (hi == hi0 || Holds(a, hi))
  {
    lo, hi := lo0, hi0;
    for r := 0 to a.Length0
      invariant lo <= lo0 && hi0 <= hi
      invariant forall y, x :: 0 <= y < r && 0 <= x < a.Length1 ==> lo <= a[y, x] <= hi
      invariant (lo == lo0 || Holds(a, lo)) && (hi == hi0 || Holds(a, hi))
    {
      for k := 0 to a.Length1
        invariant lo <= lo0 && hi0 <= hi
        invariant forall y, x :: 0 <= y <= r && 0 <= x < a.Length1 && Before(y, x, r, k) ==> lo <= a[y, x] <= hi
        invariant (lo == lo0 || Holds(a, lo)) && (hi == hi0 || Holds(a, hi))
      {
        var h := a[r, k];
        if hi < h {
          hi := h;
        }
        if lo > h {
          lo := h;
        }
      }
    }
  }

  /** Lifts heights below the floor to the floor. */
  method Lift(a: array2<real>, floor: real)
    modifies a
    ensures forall y, x :: 0 <= y < a.Length0 && 0 <= x < a.Length1 ==>
              a[y, x] == if old(a[y, x]) < floor then floor else old(a[y, x])
  {
    for r := 0 to a.Length0
      invariant forall y, x :: 0 <= y < a.Length0 && 0 <= x < a.Length1 ==>
                  a[y, x] == if y < r && old(a[y, x]) < floor then floor else old(a[y, x])
    {
      for k := 0 to a.Length1
        invariant forall y, x :: 0 <= y < a.Length0 && 0 <= x < a.Length1 ==>
                    a[y, x] == if Before(y, x, r, k) && old(a[y, x]) < floor then floor else old(a[y, x])
      {
        if a[r, k] < floor {
          a[r, k] := floor;
        }
      }
    }
  }

  ghost predicate Quantised(a: array2<real>, q: array2<int>, lo: real, hi: real, flags: nat)
    requires lo < hi && a.Length0 == q.Length0 && a.Length1 == q.Length1
    reads a, q
  {
    forall y, x :: 0 <= y < a.Length0 && 0 <= x < a.Length1 ==>
      q[y, x] == Quantise(a[y, x], lo, Step(flags, lo, hi)) && 0.0 <= q[y, x] as real <= Levels(flags)
  }

  lemma QuantiseFits(h: real, lo: real, hi: real, flags: nat, levels: nat)
    requires lo <= h <= hi && lo < hi && levels as real == Levels(flags)
    ensures 0 <= Quantise(h, lo, Step(flags, lo, hi)) <= levels
  {
    StepsOf(hi - lo, Levels(flags));
    QuantiseError(h, lo, hi, levels, Step(flags, lo, hi), (hi - lo) / Levels(flags));
  }

  /** Stores heights in words of one or two bytes: nothing is cut off. */
  method Pack(a: array2<real>, q: array2<int>, lo: real, hi: real, flags: nat)
    requires a.Length0 == q.Length0 && a.Length1 == q.Length1
    requires lo < hi && Within(a, lo, hi) && (flags == AS_INT8 || flags == AS_INT16)
    modifies q
    ensures Quantised(a, q, lo, hi, flags)
  {
    var words, step := if flags == AS_INT8 then 256 else 65536, Step(flags, lo, hi);
    for r := 0 to a.Length0
      invariant forall y, x :: 0 <= y < r && 0 <= x < a.Length1 ==>
                  q[y, x] == Quantise(a[y, x], lo, step) && 0 <= q[y, x] < words
    {
      for k := 0 to a.Length1
        invariant forall y, x :: 0 <= y <= r && 0 <= x < a.Length1 && Before(y, x, r, k) ==>
                    q[y, x] == Quantise(a[y, x], lo, step) && 0 <= q[y, x] < words
      {
        QuantiseFits(a[r, k], lo, hi, flags, words - 1);
        q[r, k] := Quantise(a[r, k], lo, step) % words;
      }
    }
  }

  /** What the packing of the heights leaves behind. */
  ghost predicate Packed(cfg: Config, h: HeightHeader, v8: array2<real>, v9: array2<real>, q8: array2<int>, q9: array2<int>)
    requires v8.Length0 == q8.Length0 == v8.Length1 == q8.Length1 == GRID
    requires v9.Length0 == q9.Length0 == v9.Length1 == q9.Length1 == GRID + 1
    reads v8, v9, q8, q9
  {
    var lo, hi := h.gridHeight, h.gridMaxHeight;
    && h.flags == HeightFlags(cfg, lo, hi) && lo <= hi && Within(v8, lo, hi) && Within(v9, lo, hi)
    && (h.flags == AS_INT8 || h.flags == AS_INT16 ==>
          Quantised(v8, q8, lo, hi, h.flags) && Quantised(v9, q9, lo, hi, h.flags))
  }

  /** Every height of the grid is what the limit makes of its former height. */
  twostate predicate Lifted(cfg: Config, a: array2<real>)
    reads a
  {
    forall y, x :: 0 <= y < a.Length0 && 0 <= x < a.Length1 ==> a[y, x] == Limited(cfg, old(a[y, x]))
  }

  /** Finds the bounds of all heights and lifts the heights of the deep sea. The bounds are those
      of the lifted heights, except that the lower is never above 20000 nor the upper below -20000
      (or the lifted values of these). */
  method LimitHeights(cfg: Config, v8: array2<real>, v9: array2<real>) returns (lo: real, hi: real)
    requires v8 != v9 && v8.Length0 > 0 && v8.Length1 > 0
    modifies v8, v9
    ensures lo <= hi && Within(v8, lo, hi) && Within(v9, lo, hi)
    ensures Lifted(cfg, v8) && Lifted(cfg, v9)
    ensures lo == Limited(cfg, 20000.0) || Holds(v8, lo) || Holds(v9, lo)
    ensures hi == Limited(cfg, -20000.0) || Holds(v8, hi) || Holds(v9, hi)
  {
    lo, hi := Widen(v8, 20000.0, -20000.0);
    lo, hi := Widen(v9, lo, hi);
    assert lo <= v8[0, 0] <= hi;
    if cfg.allowHeightLimit && lo < cfg.useMinHeight {
      Lift(v8, cfg.useMinHeight);
      Lift(v9, cfg.useMinHeight);
      lo := cfg.useMinHeight;
      if hi < cfg.useMinHeight {
        hi := cfg.useMinHeight;
      }
    }
  }

  /** Limits the heights, chooses how to store them and stores them. */
  method PackHeights(cfg: Config, v8: array2<real>, v9: array2<real>, q8: array2<int>, q9: array2<int>)
    returns (header: HeightHeader)
    requires v8.Length0 == q8.Length0 == v8.Length1 == q8.Length1 == GRID
    requires v9.Length0 == q9.Length0 == v9.Length1 == q9.Length1 == GRID + 1
    requires v8 != v9 && q8 != q9
    modifies v8, v9, q8, q9
    ensures Packed(cfg, header, v8, v9, q8, q9) && Lifted(cfg, v8) && Lifted(cfg, v9)
    ensures var lo := header.gridHeight; lo == Limited(cfg, 20000.0) || Holds(v8, lo) || Holds(v9, lo)
    ensures var hi := header.gridMaxHeight; hi == Limited(cfg, -20000.0) || Holds(v8, hi) || Holds(v9, hi)
  {
    var lo, hi := LimitHeights(cfg, v8, v9);
    var flags := HeightFlags(cfg, lo, hi);
    if flags == AS_INT8 || flags == AS_INT16 {
      Pack(v8, q8, lo, hi, flags);
      Pack(v9, q9, lo, hi, flags);
    }
    header := HeightHeader(flags, lo, hi);
  }

  // ----- the server's look-up -----

  /** A cell of the tile. */
  function CellOf(v8: array2<real>, v9: array2<real>, row: nat, col: nat): Cell
    requires v8.Length0 == v8.Length1 == GRID && v9.Length0 == v9.Length1 == GRID + 1 && row < GRID && col < GRID
    reads v8, v9
  {
    Cell(v9[row, col], v9[row + 1, col], v9[row, col + 1], v9[row + 1, col + 1], v8[row, col])
  }

  /** The height at a point of a cell, from what was stored: off by no more than the bound for
      the flags, from the planes through the limited heights. */
  method GetHeight(ghost cfg: Config, h: HeightHeader, v8: array2<real>, v9: array2<real>, q8: array2<int>, q9: array2<int>,
                   row: nat, col: nat, x: real, y: real)
    returns (height: real)
    requires v8.Length0 == q8.Length0 == v8.Length1 == q8.Length1 == GRID
    requires v9.Length0 == q9.Length0 == v9.Length1 == q9.Length1 == GRID + 1
    requires Packed(cfg, h, v8, v9, q8, q9) && row < GRID && col < GRID && 0.0 <= x < 1.0 && 0.0 <= y < 1.0
    ensures
      var bound := ErrorBound(h.flags, h.gridHeight, h.gridMaxHeight);
      -bound <= height - Plane(x, y)(CellOf(v8, v9, row, col)) <= bound
  {
    ghost var c := CellOf(v8, v9, row, col);
    ServedError(cfg, c, h.gridHeight, h.gridMaxHeight, x, y);
    if h.flags == NO_HEIGHT {
      height := h.gridHeight;
    } else if h.flags == AS_FLOAT {
      height := Plane(x, y)(CellOf(v8, v9, row, col));
    } else {
      var stored := Cell(q9[row, col] as real, q9[row + 1, col] as real, q9[row, col + 1] as real,
                         q9[row + 1, col + 1] as real, q8[row, col] as real);
      StoredCell(h, v8, v9, q8, q9, row, col, stored);
      height := Unpacker(h.gridHeight, (h.gridMaxHeight - h.gridHeight) / Levels(h.flags))(Plane(x, y)(stored));
    }
  }

  lemma StoredCell(h: HeightHeader, v8: array2<real>, v9: array2<real>, q8: array2<int>, q9: array2<int>,
                   row: nat, col: nat, stored: Cell)
    requires v8.Length0 == q8.Length0 == v8.Length1 == q8.Length1 == GRID
    requires v9.Length0 == q9.Length0 == v9.Length1 == q9.Length1 == GRID + 1
    requires row < GRID && col < GRID && h.gridHeight < h.gridMaxHeight
    requires Quantised(v8, q8, h.gridHeight, h.gridMaxHeight, h.flags) && Quantised(v9, q9, h.gridHeight, h.gridMaxHeight, h.flags)
    requires stored == Cell(q9[row, col] as real, q9[row + 1, col] as real, q9[row, col + 1] as real,
                            q9[row + 1, col + 1] as real, q8[row, col] as real)
    ensures stored == Each(Quantiser(h.gridHeight, Step(h.flags, h.gridHeight, h.gridMaxHeight)), CellOf(v8, v9, row, col))
  {
  }

  // ----- areas -----

  ghost predicate Same(a: array2<nat>, v: nat)
    reads a
  {
    forall y, x :: 0 <= y < a.Length0 && 0 <= x < a.Length1 ==> a[y, x] == v
  }

  /** One area for the tile if all cells agree. */
  method PackAreas(areas: array2<nat>) returns (h: AreaHeader)
    requires areas.Length0 > 0 && areas.Length1 > 0
    ensures (h.noArea <==> Same(areas, areas[0, 0])) && (!h.noArea ==> h.gridArea == 0)
    ensures forall y, x :: 0 <= y < areas.Length0 && 0 <= x < areas.Length1 ==> GetArea(h, areas, y, x) == areas[y, x]
  {
    var full, area := false, areas[0, 0];
    for r := 0 to areas.Length0
      invariant full ==> !Same(areas, area)
      invariant !full ==> forall y, x :: 0 <= y < r && 0 <= x < areas.Length1 ==> areas[y, x] == area
    {
      for k := 0 to areas.Length1
        invariant full ==> !Same(areas, area)
        invariant !full ==>
            forall y, x :: 0 <= y <= r && 0 <= x < areas.Length1 && Before(y, x, r, k) ==> areas[y, x] == area
      {
        if areas[r, k] != area {
          full := true;
          break;
        }
      }
    }
    h := if full then AreaHeader(false, 0) else AreaHeader(true, area);
  }

  /** The server's area of a cell: from the grid, or the one of the tile. */
  function GetArea(h: AreaHeader, areas: array2<nat>, y: nat, x: nat): nat
    requires y < areas.Length0 && x < areas.Length1
    reads areas
  {
    if h.noArea then h.gridArea else areas[y, x]
  }

  // ----- liquids -----

  /** Whether the cells have different types: the search stops at the first that differs. */
  method TypesDiffer(types: array2<nat>) returns (full: bool)
    requires types.Length0 > 0 && types.Length1 > 0
    ensures full <==> !Same(types, types[0, 0])
  {
    full := false;
    var kind, r := types[0, 0], 0;
    while r < types.Length0
      invariant 0 <= r && if full then r == types.Length0 + 1 else r <= types.Length0
      invariant full ==> !Same(types, kind)
      invariant !full ==> forall y, x :: 0 <= y < r && 0 <= x < types.Length1 ==> types[y, x] == kind
    {
      for k := 0 to types.Length1
        invariant 0 <= r < types.Length0 && !full
        invariant forall y, x :: 0 <= y <= r && 0 <= x < types.Length1 && Before(y, x, r, k) ==> types[y, x] == kind
      {
        if types[r, k] != kind {
          full := true;
          r := types.Length0;
          break;
        }
      }
      r := r + 1;
    }
  }

  /** The cells with liquid. */
  ghost function Shown(show: array2<bool>): set<(nat, nat)>
    reads show
  {
    set y: nat, x: nat | y < show.Length0 && x < show.Length1 && show[y, x] :: (y, x)
  }

  /** Which are those before a cell of the walk. */
  ghost predicate Seen(show: array2<bool>, shown: set<(nat, nat)>, r: nat, k: nat)
    reads show
  {
    forall y: nat, x: nat :: (y, x) in shown <==> y < show.Length0 && x < show.Length1 && show[y, x] && Before(y, x, r, k)
  }

  /** A box grown by a cell. */
  function Grow(b: Box, y: nat, x: nat): Box {
    Box(if b.minX > x then x else b.minX, if b.minY > y then y else b.minY,
        if b.maxX < x then x else b.maxX, if b.maxY < y then y else b.maxY)
  }

  lemma GrowSmallest(b: Box, shown: set<(nat, nat)>, y: nat, x: nat)
    requires Smallest(b, shown) && y < 255 && x < 255
    ensures Smallest(Grow(b, y, x), shown + {(y, x)})
  {
    var g, more := Grow(b, y, x), shown + {(y, x)};
    assert (y, x) in more;
    if shown != {} {
      var y0 :| (y0, b.minX) in shown;
      var y1 :| (y1, b.maxX) in shown;
      var x0 :| (b.minY, x0) in shown;
      var x1 :| (b.maxY, x1) in shown;
      assert (y0, b.minX) in more && (y1, b.maxX) in more && (b.minY, x0) in more && (b.maxY, x1) in more;
    }
  }

  /** The levels of shown cells lie between the bounds; cells not shown are at the floor. */
  ghost predicate LevelsWithin(show: array2<bool>, level: array2<real>, lo: real, hi: real)
    requires show.Length0 <= level.Length0 && show.Length1 <= level.Length1
    reads show, level
  {
    forall y, x :: 0 <= y < show.Length0 && 0 <= x < show.Length1 && show[y, x] ==> lo <= level[y, x] <= hi
  }

  /** What the walk over the liquid cells has gathered. */
  datatype Gathered = Gathered(box: Box, lo: real, hi: real)

  const NOTHING: Gathered := Gathered(NO_BOX, 20000.0, -20000.0)

  ghost predicate Valid(g: Gathered, shown: set<(nat, nat)>) {
    && Smallest(g.box, shown) && g.lo <= 20000.0 && g.hi >= -20000.0
    && (shown == {} ==> g.lo == 20000.0 && g.hi == -20000.0)
  }

  function Gather(g: Gathered, y: nat, x: nat, h: real): Gathered {
    Gathered(Grow(g.box, y, x), if g.lo > h then h else g.lo, if g.hi < h then h else g.hi)
  }

  lemma GatherValid(g: Gathered, shown: set<(nat, nat)>, y: nat, x: nat, h: real)
    requires Valid(g, shown) && y < 255 && x < 255
    ensures Valid(Gather(g, y, x, h), shown + {(y, x)})
  {
    GrowSmallest(g.box, shown, y, x);
    assert (y, x) in shown + {(y, x)};
  }

  /** A shown cell and its level. */
  datatype Spot = Spot(y: nat, x: nat, level: real)

  /** What is gathered from shown cells, one after the other. */
  function Gathering(spots: seq<Spot>): Gathered {
    if spots == [] then NOTHING
    else
      var s := spots[|spots| - 1];
      Gather(Gathering(spots[..|spots| - 1]), s.y, s.x, s.level)
  }

  function Cells(spots: seq<Spot>): set<(nat, nat)> {
    if spots == [] then {} else Cells(spots[..|spots| - 1]) + {(spots[|spots| - 1].y, spots[|spots| - 1].x)}
  }

  lemma {:induction false} GatheringValid(spots: seq<Spot>)
    requires forall y, x :: (y, x) in Cells(spots) ==> y < 255 && x < 255
    ensures Valid(Gathering(spots), Cells(spots))
  {
    if spots == [] {
    } else {
      var s := spots[|spots| - 1];
      assert (s.y, s.x) in Cells(spots);
      assert forall y, x :: (y, x) in Cells(spots[..|spots| - 1]) ==> (y, x) in Cells(spots);
      GatheringValid(spots[..|spots| - 1]);
      GatherValid(Gathering(spots[..|spots| - 1]), Cells(spots[..|spots| - 1]), s.y, s.x, s.level);
    }
  }

  /** The spots are shown cells with their levels. */
  ghost predicate Taken(show: array2<bool>, level: array2<real>, spots: seq<Spot>)
    requires show.Length0 <= level.Length0 && show.Length1 <= level.Length1
    reads show, level
  {
    forall i :: 0 <= i < |spots| ==>
      var s := spots[i];
      s.y < show.Length0 && s.x < show.Length1 && show[s.y, s.x] && level[s.y, s.x] == s.level
  }

  /** The lowest level is that of a spot, or the one the walk starts from. */
  lemma {:induction false} LowestTaken(spots: seq<Spot>)
    ensures Gathering(spots).lo == 20000.0 || exists i :: 0 <= i < |spots| && spots[i].level == Gathering(spots).lo
  {
    if spots == [] {
    } else {
      var front := spots[..|spots| - 1];
      LowestTaken(front);
      if Gathering(spots).lo != 20000.0 && Gathering(spots).lo == Gathering(front).lo {
        var i :| 0 <= i < |front| && front[i].level == Gathering(front).lo;
        assert spots[i].level == Gathering(spots).lo;
      } else {
        assert Gathering(spots).lo != 20000.0 ==> spots[|spots| - 1].level == Gathering(spots).lo;
      }
    }
  }

  /** Some cell with liquid has this level. */
  ghost predicate Attained(show: array2<bool>, level: array2<real>, h: real)
    requires show.Length0 <= level.Length0 && show.Length1 <= level.Length1
    reads show, level
  {
    exists y, x :: 0 <= y < show.Length0 && 0 <= x < show.Length1 && show[y, x] && level[y, x] == h
  }

  lemma LowestAttained(show: array2<bool>, level: array2<real>, spots: seq<Spot>)
    requires show.Length0 <= level.Length0 && show.Length1 <= level.Length1 && Taken(show, level, spots)
    ensures Gathering(spots).lo == 20000.0 || Attained(show, level, Gathering(spots).lo)
  {
    LowestTaken(spots);
    if Gathering(spots).lo != 20000.0 {
      var i :| 0 <= i < |spots| && spots[i].level == Gathering(spots).lo;
      assert level[spots[i].y, spots[i].x] == spots[i].level;
    }
  }

  /** One cell of the walk. */
  method VisitCell(floor: real, show: array2<bool>, level: array2<real>, r: nat, k: nat, g0: Gathered, ghost spots0: seq<Spot>)
    returns (g: Gathered, ghost spots: seq<Spot>)
    requires r < show.Length0 && k < show.Length1 && show.Length0 <= level.Length0 && show.Length1 <= level.Length1
    requires g0 == Gathering(spots0) && Seen(show, Cells(spots0), r, k) && Taken(show, level, spots0) && Bounded(show, level, g0.lo, g0.hi, r, k)
    modifies level
    ensures g == Gathering(spots) && Seen(show, Cells(spots), r, k + 1) && Taken(show, level, spots) && Bounded(show, level, g.lo, g.hi, r, k + 1)
    ensures level[r, k] == if show[r, k] then old(level[r, k]) else floor
    ensures forall y, x :: 0 <= y < level.Length0 && 0 <= x < level.Length1 && (y != r || x != k) ==>
              level[y, x] == old(level[y, x])
  {
    if show[r, k] {
      g, spots := Gather(g0, r, k, level[r, k]), spots0 + [Spot(r, k, level[r, k])];
      OneMore(spots0, r, k, level[r, k]);
      SeenOne(show, Cells(spots0), r, k);
      BoundedOne(show, level, g0, r, k);
    } else {
      level[r, k] := floor;
      g, spots := g0, spots0;
    }
  }

  lemma OneMore(spots: seq<Spot>, y: nat, x: nat, h: real)
    ensures Gathering(spots + [Spot(y, x, h)]) == Gather(Gathering(spots), y, x, h)
    ensures Cells(spots + [Spot(y, x, h)]) == Cells(spots) + {(y, x)}
  {
    assert (spots + [Spot(y, x, h)])[..|spots|] == spots;
  }

  lemma SeenOne(show: array2<bool>, shown: set<(nat, nat)>, r: nat, k: nat)
    requires r < show.Length0 && k < show.Length1 && show[r, k] && Seen(show, shown, r, k)
    ensures Seen(show, shown + {(r, k)}, r, k + 1)
  {
  }

  lemma BoundedOne(show: array2<bool>, level: array2<real>, g: Gathered, r: nat, k: nat)
    requires r < show.Length0 && k < show.Length1 && show.Length0 <= level.Length0 && show.Length1 <= level.Length1
    requires Bounded(show, level, g.lo, g.hi, r, k)
    ensures var g' := Gather(g, r, k, level[r, k]); Bounded(show, level, g'.lo, g'.hi, r, k + 1)
  {
  }

  /** One row of the walk. */
  method VisitRow(floor: real, show: array2<bool>, level: array2<real>, r: nat, g0: Gathered, ghost spots0: seq<Spot>)
    returns (g: Gathered, ghost spots: seq<Spot>)
    requires r < show.Length0 <= level.Length0 && show.Length1 <= level.Length1
    requires g0 == Gathering(spots0) && Seen(show, Cells(spots0), r, 0) && Taken(show, level, spots0) && Bounded(show, level, g0.lo, g0.hi, r, 0)
    modifies level
    ensures g == Gathering(spots) && Seen(show, Cells(spots), r + 1, 0) && Taken(show, level, spots) && Bounded(show, level, g.lo, g.hi, r + 1, 0)
    ensures forall y, x :: 0 <= y < level.Length0 && 0 <= x < level.Length1 ==>
              level[y, x] == if y == r && x < show.Length1 && !show[y, x] then floor else old(level[y, x])
  {
    g, spots := g0, spots0;
    for k := 0 to show.Length1
      invariant g == Gathering(spots) && Seen(show, Cells(spots), r, k) && Taken(show, level, spots) && Bounded(show, level, g.lo, g.hi, r, k)
      invariant forall y, x :: 0 <= y < level.Length0 && 0 <= x < level.Length1 ==>
                  level[y, x] == if y == r && x < k && !show[y, x] then floor else old(level[y, x])
    {
      g, spots := VisitCell(floor, show, level, r, k, g, spots);
    }
  }

  /** The walk over the liquid cells: the smallest box around those shown, bounds of their
      levels, and the floor for the rest. */
  method BoundLiquid(floor: real, show: array2<bool>, level: array2<real>) returns (g: Gathered)
    requires show.Length0 <= level.Length0 && show.Length1 <= level.Length1 && show.Length0 < 255 && show.Length1 < 255
    modifies level
    ensures Valid(g, Shown(show)) && LevelsWithin(show, level, g.lo, g.hi)
    ensures g.lo == 20000.0 || Attained(show, level, g.lo)
    ensures forall y, x :: 0 <= y < level.Length0 && 0 <= x < level.Length1 ==>
              level[y, x] == if y < show.Length0 && x < show.Length1 && !show[y, x] then floor else old(level[y, x])
  {
    g := NOTHING;
    ghost var spots: seq<Spot> := [];
    for r := 0 to show.Length0
      invariant g == Gathering(spots) && Seen(show, Cells(spots), r, 0) && Taken(show, level, spots) && Bounded(show, level, g.lo, g.hi, r, 0)
      invariant forall y, x :: 0 <= y < level.Length0 && 0 <= x < level.Length1 ==>
                  level[y, x] == if y < r && x < show.Length1 && !show[y, x] then floor else old(level[y, x])
    {
      g, spots := VisitRow(floor, show, level, r, g, spots);
    }
    SeenAll(show, Cells(spots));
    GatheringValid(spots);
    LowestAttained(show, level, spots);
  }

  lemma SeenAll(show: array2<bool>, shown: set<(nat, nat)>)
    requires Seen(show, shown, show.Length0, 0)
    ensures shown == Shown(show)
  {
    forall c: (nat, nat) ensures c in shown <==> c in Shown(show) {
      assert c == (c.0, c.1);
    }
  }

  /** Levels of the shown cells before a place of the walk. */
  ghost predicate Bounded(show: array2<bool>, level: array2<real>, lo: real, hi: real, r: nat, k: nat)
    requires show.Length0 <= level.Length0 && show.Length1 <= level.Length1
    reads show, level
  {
    forall y, x :: 0 <= y < show.Length0 && 0 <= x < show.Length1 && show[y, x] && Before(y, x, r, k) ==> lo <= level[y, x] <= hi
  }

  /** The header of the liquid part, from what the walk gathered. */
  ghost predicate LiquidPacked(cfg: Config, h: LiquidHeader, g: Gathered, show: array2<bool>, level: array2<real>)
    requires show.Length0 == show.Length1 == GRID && level.Length0 == level.Length1 == GRID + 1
    reads show, level
  {
    && Valid(g, Shown(show)) && LevelsWithin(show, level, g.lo, g.hi) && (g.lo == 20000.0 || Attained(show, level, g.lo))
    && h.window == WindowOf(g.box) && h.level == g.lo
    && (h.noHeight <==> g.hi == g.lo || (cfg.allowFloatToInt && g.hi - g.lo < cfg.flatLiquidDelta))
  }

  /** Prepares the liquid part, if any cell of the tile has a liquid type. */
  method PackLiquid(cfg: Config, show: array2<bool>, level: array2<real>, types: array2<nat>)
    returns (h: Option<LiquidHeader>, ghost g: Gathered)
    requires show.Length0 == show.Length1 == GRID && level.Length0 == level.Length1 == GRID + 1
    requires types.Length0 > 0 && types.Length1 > 0
    modifies level
    ensures h.None? <==> Same(types, 0)
    ensures h.Some? ==> LiquidPacked(cfg, h.value, g, show, level)
    ensures h.Some? ==> forall y, x :: 0 <= y < types.Length0 && 0 <= x < types.Length1 ==> GetType(h.value, types, y, x) == types[y, x]
    ensures forall y, x :: 0 <= y <= GRID && 0 <= x <= GRID ==>
              level[y, x] == old(level[y, x]) || (level[y, x] == cfg.useMinHeight && y < GRID && x < GRID && !show[y, x])
    ensures h.Some? ==> (h.value.noType <==> Same(types, types[0, 0]))
    ensures h.Some? ==> (h.value.noType ==> h.value.kind == types[0, 0]) && (!h.value.noType ==> h.value.kind == 0)
  {
    var full := TypesDiffer(types);
    g := NOTHING;
    if types[0, 0] == 0 && !full {
      h := None;
    } else {
      var got := BoundLiquid(cfg.useMinHeight, show, level);
      g := got;
      var flat := got.hi == got.lo || (cfg.allowFloatToInt && got.hi - got.lo < cfg.flatLiquidDelta);
      h := Some(LiquidHeader(!full, flat, if full then 0 else types[0, 0], WindowOf(got.box), got.lo));
    }
  }

  /** The server's type of a cell: from the grid, or the one of the tile. */
  function GetType(h: LiquidHeader, types: array2<nat>, y: nat, x: nat): nat
    requires y < types.Length0 && x < types.Length1
    reads types
  {
    if h.noType then h.kind else types[y, x]
  }

  /** The rows of levels written: they are inside the grid exactly when some cell shows liquid or
      the packing found the (empty) surface flat. */
  lemma LevelsInsideIff(cfg: Config, h: LiquidHeader, g: Gathered, show: array2<bool>, level: array2<real>)
    requires show.Length0 == show.Length1 == GRID && level.Length0 == level.Length1 == GRID + 1
    requires LiquidPacked(cfg, h, g, show, level)
    ensures h.noHeight || InsideGrid(h.window) <==>
            Shown(show) != {} || (cfg.allowFloatToInt && -40000.0 < cfg.flatLiquidDelta)
  {
    WindowInsideIff(g.box, Shown(show));
  }

  /** A grid of levels as a function. */
  ghost function LevelsOf(level: array2<real>): seq<seq<real>>
    reads level
  {
    seq(level.Length0, y requires 0 <= y < level.Length0 reads level => seq(level.Length1, x requires 0 <= x < level.Length1 reads level => level[y, x]))
  }

  /** What is read at a place: a level of the grid, or whatever lies in memory beyond it. */
  ghost function At(levels: seq<seq<real>>, beyond: (nat, nat) -> real): (nat, nat) -> real {
    (y: nat, x: nat) => if y < |levels| && x < |levels[y]| then levels[y][x] else beyond(y, x)
  }

  /** Writes the rows of the window, be it inside the grid or not. */
  method StoreLevels(level: array2<real>, beyond: (nat, nat) -> real, w: Window) returns (stored: seq<real>)
    ensures stored == Rows(At(LevelsOf(level), beyond), w, w.height)
  {
    ghost var all := At(LevelsOf(level), beyond);
    stored := [];
    for r := 0 to w.height
      invariant stored == Rows(all, w, r)
    {
      var row := [];
      for k := 0 to w.width
        invariant |row| == k && forall j: nat :: j < k ==> row[j] == all(w.offsetY + r, w.offsetX + j)
      {
        var y, x := w.offsetY + r, w.offsetX + k;
        row := row + [if y < level.Length0 && x < level.Length1 then level[y, x] else beyond(y, x)];
      }
      assert row == seq(w.width, k requires 0 <= k => all(w.offsetY + r, w.offsetX + k));
      stored := stored + row;
    }
  }

  /** The server's level of a cell. */
  function GetLiquidLevel(h: LiquidHeader, stored: seq<real>, y: nat, x: nat): (bool, real)
    requires h.noHeight || |stored| == h.window.height * h.window.width
  {
    if h.noHeight then (true, h.level) else LevelAt(stored, h.window, y, x)
  }

  /** A cell that shows liquid keeps its level, up to the limit under which a surface is flat. */
  lemma LiquidServed(cfg: Config, h: LiquidHeader, g: Gathered, show: array2<bool>, level: array2<real>,
                     beyond: (nat, nat) -> real, stored: seq<real>, y: nat, x: nat)
    requires show.Length0 == show.Length1 == GRID && level.Length0 == level.Length1 == GRID + 1
    requires LiquidPacked(cfg, h, g, show, level) && y < GRID && x < GRID && show[y, x]
    requires !h.noHeight ==> stored == Rows(At(LevelsOf(level), beyond), h.window, h.window.height)
    ensures
      var (there, served) := GetLiquidLevel(h, stored, y, x);
      && there && (h.noHeight ==> served == level[y, x] || 0.0 <= level[y, x] - served < cfg.flatLiquidDelta)
      && (!h.noHeight ==> served == level[y, x])
  {
    assert (y, x) in Shown(show);
    if !h.noHeight {
      LevelsKept(At(LevelsOf(level), beyond), g.box, Shown(show), y, x);
    }
  }
}
