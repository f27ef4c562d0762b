/** The whole way of a tile: packed by the extractor, written, read and answered from by the
    server (contrib/extractor/System.cpp, src/game/GridMap.cpp). */
module MapTile {
  import opened Options
  import opened MapPacker
  import opened MapExtractor
  import F = MapFile

  const AREAS: nat := 16

  /** Floats as bytes. */
  datatype Codec = Codec(enc: real -> F.Bytes, dec: F.Bytes -> real)

  /** The number is one that a float holds exactly. */
  ghost predicate Exact(k: Codec, h: real) {
    |k.enc(h)| == 4 && k.dec(k.enc(h)) == h
  }

  // ----- grids as lines of numbers -----

  function Row<T>(a: array2<T>, y: nat): (s: seq<T>)
    requires y < a.Length0
    reads a
    ensures |s| == a.Length1
  {
    seq(a.Length1, x requires 0 <= x < a.Length1 reads a => a[y, x])
  }

  /** The first rows of a grid in the order they lie in memory. */
  function Line<T>(a: array2<T>, rows: nat): (s: seq<T>)
    requires rows <= a.Length0
    reads a
    ensures |s| == rows * a.Length1
  {
    if rows == 0 then [] else Line(a, rows - 1) + Row(a, rows - 1)
  }

  lemma {:induction false} LineAt<T>(a: array2<T>, rows: nat, y: nat, x: nat)
    requires y < rows <= a.Length0 && x < a.Length1
    ensures y * a.Length1 + x < rows * a.Length1 && Line(a, rows)[y * a.Length1 + x] == a[y, x]
  {
    IndexInside(y, x, rows, a.Length1);
    if y == rows - 1 {
    } else {
      IndexInside(y, x, rows - 1, a.Length1);
      LineAt(a, rows - 1, y, x);
    }
  }

  /** And nothing else lies there. */
  lemma {:induction false} LineHolds<T>(a: array2<T>, rows: nat, i: nat)
    requires rows <= a.Length0 && i < |Line(a, rows)|
    ensures exists y, x :: 0 <= y < rows && 0 <= x < a.Length1 && a[y, x] == Line(a, rows)[i]
  {
    if rows == 0 {
    } else if i < |Line(a, rows - 1)| {
      LineHolds(a, rows - 1, i);
    } else {
      var x := i - |Line(a, rows - 1)|;
      assert a[rows - 1, x] == Line(a, rows)[i];
    }
  }

  /** Numbers as bytes, one after the other. */
  function Numbers<T>(line: seq<T>, enc: T -> F.Bytes): F.Bytes {
    if line == [] then [] else Numbers(line[..|line| - 1], enc) + enc(line[|line| - 1])
  }

  lemma {:induction false} NumbersAt<T>(line: seq<T>, enc: T -> F.Bytes, w: nat, i: nat)
    requires forall j :: 0 <= j < |line| ==> |enc(line[j])| == w
    ensures |Numbers(line, enc)| == w * |line|
    ensures i < |line| ==> w * i + w <= w * |line| && Numbers(line, enc)[w * i..w * i + w] == enc(line[i])
  {
    if line == [] {
    } else {
      var front, last := line[..|line| - 1], line[|line| - 1];
      NumbersAt(front, enc, w, i);
      assert w * |line| == w * |front| + w;
      if i < |front| {
        assert Numbers(line, enc)[w * i..w * i + w] == Numbers(front, enc)[w * i..w * i + w];
      } else if i == |front| {
        assert Numbers(line, enc)[w * i..w * i + w] == enc(last);
      }
    }
  }

  function Word(q: int): F.Bytes {
    F.U16(if q < 0 then 0 else q)
  }

  function One(q: int): F.Bytes {
    [if q < 0 then 0 else q]
  }

  // ----- heights -----

  function HeightNumbers(flags: nat, k: Codec, v: seq<real>, q: seq<int>): F.Bytes {
    if flags == NO_HEIGHT then []
    else if flags == AS_INT16 then Numbers(q, Word)
    else if flags == AS_INT8 then Numbers(q, One)
    else Numbers(v, k.enc)
  }

  function HeightsOf(k: Codec, h: HeightHeader, v8: seq<real>, v9: seq<real>, q8: seq<int>, q9: seq<int>): F.Heights {
    F.Heights(h.flags, k.enc(h.gridHeight), k.enc(h.gridMaxHeight),
              HeightNumbers(h.flags, k, v9, q9), HeightNumbers(h.flags, k, v8, q8))
  }

  /** The server's i-th number of a grid. */
  function NumberAt(flags: nat, k: Codec, b: F.Bytes, i: nat): real
    requires (F.AsInt16(flags) ==> 2 * i + 2 <= |b|) && (F.AsInt8(flags) ==> i < |b|)
    requires !F.AsInt16(flags) && !F.AsInt8(flags) ==> 4 * i + 4 <= |b|
  {
    if F.AsInt16(flags) then F.Int16(b[2 * i..2 * i + 2]) as real
    else if F.AsInt8(flags) then b[i] as real
    else k.dec(b[4 * i..4 * i + 4])
  }

  /** The numbers of a cell: two neighbours of one row of corners and two of the next, and the middle. */
  function Corners(k: Codec, h: F.Heights, i: nat, j: nat, m: nat): Cell
    requires F.HeightsFit(h) && !F.NoHeight(h.flags) && i + 1 < F.V9_CELLS && j + 1 < F.V9_CELLS && m < F.V8_CELLS
  {
    Cell(NumberAt(h.flags, k, h.v9, i), NumberAt(h.flags, k, h.v9, j),
         NumberAt(h.flags, k, h.v9, i + 1), NumberAt(h.flags, k, h.v9, j + 1), NumberAt(h.flags, k, h.v8, m))
  }

  function ServerCell(k: Codec, h: F.Heights, row: nat, col: nat): Cell
    requires F.HeightsFit(h) && !F.NoHeight(h.flags) && row < GRID && col < GRID
  {
    Corners(k, h, row * 129 + col, (row + 1) * 129 + col, row * 128 + col)
  }

  /** What the server answers from what it has read. */
  function ServerHeight(k: Codec, h: F.Heights, row: nat, col: nat, x: real, y: real): real
    requires F.HeightsFit(h) && row < GRID && col < GRID
  {
    var lo, hi := k.dec(h.gridHeight), k.dec(h.gridMaxHeight);
    if F.NoHeight(h.flags) then lo
    else if F.AsInt16(h.flags) then Unpacker(lo, (hi - lo) / Levels(AS_INT16))(Plane(x, y)(ServerCell(k, h, row, col)))
    else if F.AsInt8(h.flags) then Unpacker(lo, (hi - lo) / Levels(AS_INT8))(Plane(x, y)(ServerCell(k, h, row, col)))
    else Plane(x, y)(ServerCell(k, h, row, col))
  }

  ghost predicate AllExact(k: Codec, line: seq<real>) {
    forall i :: 0 <= i < |line| ==> Exact(k, line[i])
  }

  /** Bounds and heights are floats as they are. */
  ghost predicate Floats(k: Codec, h: HeightHeader, v8: seq<real>, v9: seq<real>) {
    && Exact(k, h.gridHeight) && Exact(k, h.gridMaxHeight)
    && AllExact(k, v8) && AllExact(k, v9)
  }

  /** A line of stored numbers, as the packing leaves it. */
  ghost predicate LineOk(h: HeightHeader, v: seq<real>, q: seq<int>) {
    && |v| == |q|
    && (h.flags == AS_INT8 || h.flags == AS_INT16 ==>
          h.gridHeight < h.gridMaxHeight &&
          forall i :: 0 <= i < |q| ==>
            q[i] == Quantise(v[i], h.gridHeight, Step(h.flags, h.gridHeight, h.gridMaxHeight))
            && 0 <= q[i] <= if h.flags == AS_INT8 then 255 else 65535)
  }

  predicate KnownFlags(flags: nat) {
    flags == AS_FLOAT || flags == NO_HEIGHT || flags == AS_INT16 || flags == AS_INT8
  }

  /** Every stored number is read back. */
  lemma NumberBack(k: Codec, h: HeightHeader, v: seq<real>, q: seq<int>, i: nat)
    requires KnownFlags(h.flags) && h.flags != NO_HEIGHT && LineOk(h, v, q) && i < |v|
    requires AllExact(k, v)
    ensures
      var b := HeightNumbers(h.flags, k, v, q);
      && |b| == F.HeightBytes(h.flags) * |v|
      && NumberAt(h.flags, k, b, i) ==
           if h.flags == AS_FLOAT then v[i] else Quantise(v[i], h.gridHeight, Step(h.flags, h.gridHeight, h.gridMaxHeight)) as real
  {
    if h.flags == AS_INT16 {
      NumbersAt(q, Word, 2, i);
      F.RoundTrip16(q[i]);
    } else if h.flags == AS_INT8 {
      NumbersAt(q, One, 1, i);
    } else {
      NumbersAt(v, k.enc, 4, i);
    }
  }

  lemma HeightSizes(k: Codec, h: HeightHeader, v: seq<real>, q: seq<int>)
    requires KnownFlags(h.flags) && LineOk(h, v, q) && AllExact(k, v)
    ensures |HeightNumbers(h.flags, k, v, q)| == F.HeightBytes(h.flags) * |v|
  {
    if h.flags == AS_INT16 {
      NumbersAt(q, Word, 2, 0);
    } else if h.flags == AS_INT8 {
      NumbersAt(q, One, 1, 0);
    } else if h.flags == AS_FLOAT {
      NumbersAt(v, k.enc, 4, 0);
    }
  }

  /** The cell of the tile from lines of heights. */
  function CellAt(v8: seq<real>, v9: seq<real>, row: nat, col: nat): Cell
    requires |v8| == 128 * 128 && |v9| == 129 * 129 && row < GRID && col < GRID
  {
    Cell(v9[row * 129 + col], v9[(row + 1) * 129 + col], v9[row * 129 + col + 1], v9[(row + 1) * 129 + col + 1],
         v8[row * 128 + col])
  }

  lemma HeightsFitOf(k: Codec, h: HeightHeader, v8: seq<real>, v9: seq<real>, q8: seq<int>, q9: seq<int>)
    requires KnownFlags(h.flags) && LineOk(h, v8, q8) && LineOk(h, v9, q9) && Floats(k, h, v8, v9)
    requires |v8| == 128 * 128 && |v9| == 129 * 129
    ensures F.HeightsFit(HeightsOf(k, h, v8, v9, q8, q9))
  {
    HeightSizes(k, h, v8, q8);
    HeightSizes(k, h, v9, q9);
  }

  /** A stored number as the server has it before it unpacks. */
  function StoredNumber(h: HeightHeader, v: real): real
    requires h.flags != AS_FLOAT ==> h.gridHeight < h.gridMaxHeight
  {
    if h.flags == AS_FLOAT then v else Quantiser(h.gridHeight, Step(h.flags, h.gridHeight, h.gridMaxHeight))(v)
  }

  function StoredCell(h: HeightHeader, c: Cell): Cell
    requires h.flags != AS_FLOAT ==> h.gridHeight < h.gridMaxHeight
  {
    Cell(StoredNumber(h, c.h1), StoredNumber(h, c.h2), StoredNumber(h, c.h3), StoredNumber(h, c.h4), StoredNumber(h, c.mid))
  }

  lemma NumberBackIn(k: Codec, h: HeightHeader, v: seq<real>, q: seq<int>, b: F.Bytes, i: nat)
    requires KnownFlags(h.flags) && h.flags != NO_HEIGHT && LineOk(h, v, q) && i < |v| && AllExact(k, v)
    requires b == HeightNumbers(h.flags, k, v, q) && |b| == F.HeightBytes(h.flags) * |v|
    ensures NumberAt(h.flags, k, b, i) == StoredNumber(h, v[i])
  {
    NumberBack(k, h, v, q, i);
  }

  lemma ServerCellBack(k: Codec, h: HeightHeader, v8: seq<real>, v9: seq<real>, q8: seq<int>, q9: seq<int>, hs: F.Heights,
                       row: nat, col: nat, c: Cell)
    requires KnownFlags(h.flags) && h.flags != NO_HEIGHT && LineOk(h, v8, q8) && LineOk(h, v9, q9) && Floats(k, h, v8, v9)
    requires |v8| == 128 * 128 && |v9| == 129 * 129 && row < GRID && col < GRID && c == CellAt(v8, v9, row, col)
    requires F.HeightsFit(hs) && hs.flags == h.flags
    requires hs.v8 == HeightNumbers(h.flags, k, v8, q8) && hs.v9 == HeightNumbers(h.flags, k, v9, q9)
    ensures ServerCell(k, hs, row, col) == StoredCell(h, c)
  {
    PlacesInside(row, col);
    CellBack(k, h, v8, v9, q8, q9, hs, row * 129 + col, (row + 1) * 129 + col, row * 128 + col, c);
  }

  lemma PlacesInside(row: nat, col: nat)
    requires row < GRID && col < GRID
    ensures row * 129 + col + 1 < 129 * 129 && (row + 1) * 129 + col + 1 < 129 * 129 && row * 128 + col < 128 * 128
  {
  }

  lemma CellBack(k: Codec, h: HeightHeader, v8: seq<real>, v9: seq<real>, q8: seq<int>, q9: seq<int>, hs: F.Heights,
                 i: nat, j: nat, m: nat, c: Cell)
    requires KnownFlags(h.flags) && h.flags != NO_HEIGHT && LineOk(h, v8, q8) && LineOk(h, v9, q9)
    requires AllExact(k, v8) && AllExact(k, v9)
    requires |v8| == F.V8_CELLS && |v9| == F.V9_CELLS && i + 1 < |v9| && j + 1 < |v9| && m < |v8|
    requires hs.flags == h.flags && hs.v8 == HeightNumbers(h.flags, k, v8, q8) && hs.v9 == HeightNumbers(h.flags, k, v9, q9)
    requires F.HeightsFit(hs) && c == Cell(v9[i], v9[j], v9[i + 1], v9[j + 1], v8[m])
    ensures Corners(k, hs, i, j, m) == StoredCell(h, c)
  {
    HeightSizes(k, h, v8, q8);
    HeightSizes(k, h, v9, q9);
    CornersBack(k, h, v9, q9, hs.v9, i, j);
    NumberBackIn(k, h, v8, q8, hs.v8, m);
  }

  /** The corners of a cell: two neighbours in one row and two in the next. */
  lemma CornersBack(k: Codec, h: HeightHeader, v: seq<real>, q: seq<int>, b: F.Bytes, i: nat, j: nat)
    requires KnownFlags(h.flags) && h.flags != NO_HEIGHT && LineOk(h, v, q) && AllExact(k, v)
    requires i + 1 < |v| && j + 1 < |v|
    requires b == HeightNumbers(h.flags, k, v, q) && |b| == F.HeightBytes(h.flags) * |v|
    ensures NumberAt(h.flags, k, b, i) == StoredNumber(h, v[i]) && NumberAt(h.flags, k, b, i + 1) == StoredNumber(h, v[i + 1])
    ensures NumberAt(h.flags, k, b, j) == StoredNumber(h, v[j]) && NumberAt(h.flags, k, b, j + 1) == StoredNumber(h, v[j + 1])
  {
    NumberBackIn(k, h, v, q, b, i);
    NumberBackIn(k, h, v, q, b, i + 1);
    NumberBackIn(k, h, v, q, b, j);
    NumberBackIn(k, h, v, q, b, j + 1);
  }

  lemma StoredCellIs(h: HeightHeader, c: Cell)
    requires h.flags != AS_FLOAT ==> h.gridHeight < h.gridMaxHeight
    ensures
      StoredCell(h, c)
      == if h.flags == AS_FLOAT then c else Each(Quantiser(h.gridHeight, Step(h.flags, h.gridHeight, h.gridMaxHeight)), c)
  {
  }

  /** What the server computes from the bytes is what it would compute from the grids. */
  lemma ServerHeightBack(k: Codec, h: HeightHeader, v8: seq<real>, v9: seq<real>, q8: seq<int>, q9: seq<int>,
                         row: nat, col: nat, x: real, y: real)
    requires KnownFlags(h.flags) && LineOk(h, v8, q8) && LineOk(h, v9, q9) && Floats(k, h, v8, v9)
    requires |v8| == 128 * 128 && |v9| == 129 * 129 && row < GRID && col < GRID
    ensures F.HeightsFit(HeightsOf(k, h, v8, v9, q8, q9))
    ensures ServerHeight(k, HeightsOf(k, h, v8, v9, q8, q9), row, col, x, y)
         == Served(h.flags, h.gridHeight, h.gridMaxHeight, CellAt(v8, v9, row, col), x, y)
  {
    HeightsFitOf(k, h, v8, v9, q8, q9);
    var hs := HeightsOf(k, h, v8, v9, q8, q9);
    if h.flags != NO_HEIGHT {
      ServerCellBack(k, h, v8, v9, q8, q9, hs, row, col, CellAt(v8, v9, row, col));
      StoredCellIs(h, CellAt(v8, v9, row, col));
      ServedBack(k, h, hs, CellAt(v8, v9, row, col), ServerCell(k, hs, row, col), row, col, x, y);
    }
  }

  lemma ServedBack(k: Codec, h: HeightHeader, hs: F.Heights, c: Cell, stored: Cell, row: nat, col: nat, x: real, y: real)
    requires KnownFlags(h.flags) && h.flags != NO_HEIGHT && F.HeightsFit(hs) && row < GRID && col < GRID
    requires hs.flags == h.flags && k.dec(hs.gridHeight) == h.gridHeight && k.dec(hs.gridMaxHeight) == h.gridMaxHeight
    requires h.flags != AS_FLOAT ==> h.gridHeight < h.gridMaxHeight
    requires stored == ServerCell(k, hs, row, col)
    requires stored == if h.flags == AS_FLOAT then c
                       else Each(Quantiser(h.gridHeight, Step(h.flags, h.gridHeight, h.gridMaxHeight)), c)
    ensures ServerHeight(k, hs, row, col, x, y) == Served(h.flags, h.gridHeight, h.gridMaxHeight, c, x, y)
  {
    var lo, hi := h.gridHeight, h.gridMaxHeight;
    var height := ServerHeight(k, hs, row, col, x, y);
    if h.flags == AS_FLOAT {
      assert height == Plane(x, y)(stored);
    } else if h.flags == AS_INT16 {
      assert height == Unpacker(lo, (hi - lo) / Levels(AS_INT16))(Plane(x, y)(stored));
      ServedPacked(AS_INT16, lo, hi, c, stored, x, y);
    } else {
      assert height == Unpacker(lo, (hi - lo) / Levels(AS_INT8))(Plane(x, y)(stored));
      ServedPacked(AS_INT8, lo, hi, c, stored, x, y);
    }
  }

  lemma ServedPacked(flags: nat, lo: real, hi: real, c: Cell, stored: Cell, x: real, y: real)
    requires flags == AS_INT8 || flags == AS_INT16
    requires lo < hi && stored == Each(Quantiser(lo, Step(flags, lo, hi)), c)
    ensures Served(flags, lo, hi, c, x, y) == Unpacker(lo, (hi - lo) / Levels(flags))(Plane(x, y)(stored))
  {
  }

  // ----- areas -----

  function AreaOf(h: AreaHeader, line: seq<nat>): F.Area {
    F.Area(if h.noArea then 1 else 0, h.gridArea, if h.noArea then [] else Numbers(line, F.U16))
  }

  function ServerArea(a: F.Area, y: nat, x: nat): nat
    requires F.AreaFits(a) && y < AREAS && x < AREAS
  {
    if F.NoArea(a.flags) then a.gridArea else F.Int16(a.cells[2 * (y * 16 + x)..2 * (y * 16 + x) + 2])
  }

  ghost predicate Below(a: array2<nat>, limit: nat)
    reads a
  {
    forall y, x :: 0 <= y < a.Length0 && 0 <= x < a.Length1 ==> a[y, x] < limit
  }

  lemma AreaFitsOf(h: AreaHeader, areas: array2<nat>)
    requires areas.Length0 == AREAS && areas.Length1 == AREAS && h.gridArea < 0x1_0000
    ensures F.AreaFits(AreaOf(h, Line(areas, AREAS)))
  {
    NumbersAt(Line(areas, AREAS), F.U16, 2, 0);
  }

  /** The area of every cell comes back through the file. */
  lemma AreaBack(h: AreaHeader, areas: array2<nat>, y: nat, x: nat)
    requires areas.Length0 == AREAS && areas.Length1 == AREAS && Below(areas, 0x1_0000) && h.gridArea < 0x1_0000
    requires y < AREAS && x < AREAS && GetArea(h, areas, y, x) == areas[y, x]
    ensures F.AreaFits(AreaOf(h, Line(areas, AREAS)))
    ensures ServerArea(AreaOf(h, Line(areas, AREAS)), y, x) == areas[y, x]
  {
    AreaFitsOf(h, areas);
    LineAt(areas, AREAS, y, x);
    NumbersAt(Line(areas, AREAS), F.U16, 2, y * 16 + x);
    F.RoundTrip16(areas[y, x]);
  }

  // ----- liquids -----

  function Octet(n: nat): F.Bytes {
    [n]
  }

  function LiquidOf(k: Codec, h: LiquidHeader, types: seq<nat>, stored: seq<real>): F.Liquid {
    F.Liquid((if h.noType then 1 else 0) + (if h.noHeight then 2 else 0), h.kind,
             h.window.offsetX, h.window.offsetY, h.window.width, h.window.height, k.enc(h.level),
             if h.noType then [] else Numbers(types, Octet), if h.noHeight then [] else Numbers(stored, k.enc))
  }

  function ServerType(l: F.Liquid, y: nat, x: nat): nat
    requires F.LiquidFits(l) && y < AREAS && x < AREAS
  {
    if F.NoType(l.flags) then l.kind else l.types[y * 16 + x]
  }

  /** The level at a cell; outside of the window there is none. */
  function ServerLevel(k: Codec, l: F.Liquid, y: nat, x: nat): (bool, real)
    requires F.LiquidFits(l)
  {
    if F.NoLiquidHeight(l.flags) then (true, k.dec(l.level))
    else if y < l.offsetY || y - l.offsetY >= l.height || x < l.offsetX || x - l.offsetX >= l.width then (false, 0.0)
    else
      IndexInside(y - l.offsetY, x - l.offsetX, l.height, l.width);
      var i := (y - l.offsetY) * l.width + (x - l.offsetX);
      assert 4 * l.width * l.height == 4 * (l.height * l.width);
      (true, k.dec(l.levels[4 * i..4 * i + 4]))
  }

  predicate WindowFits(w: Window) {
    w.offsetX < 256 && w.offsetY < 256 && w.width < 256 && w.height < 256
  }

  predicate FourBytes(k: Codec, h: real) {
    |k.enc(h)| == 4
  }

  /** Every float takes four bytes. */
  ghost predicate Sized(k: Codec) {
    forall h :: FourBytes(k, h)
  }

  lemma SizedLine(k: Codec, stored: seq<real>)
    requires Sized(k)
    ensures forall j :: 0 <= j < |stored| ==> |k.enc(stored[j])| == 4
  {
    forall j | 0 <= j < |stored| ensures |k.enc(stored[j])| == 4 {
      assert FourBytes(k, stored[j]);
    }
  }

  lemma LevelBytes(k: Codec, stored: seq<real>, height: nat, width: nat)
    requires |stored| == height * width && Sized(k)
    ensures |Numbers(stored, k.enc)| == 4 * width * height
  {
    SizedLine(k, stored);
    NumbersAt(stored, k.enc, 4, 0);
    assert 4 * width * height == 4 * (height * width);
  }

  lemma LiquidFitsOf(k: Codec, h: LiquidHeader, types: array2<nat>, stored: seq<real>)
    requires types.Length0 == AREAS && types.Length1 == AREAS && h.kind < 0x1_0000 && WindowFits(h.window)
    requires Sized(k) && (!h.noHeight ==> |stored| == h.window.height * h.window.width)
    ensures F.LiquidFits(LiquidOf(k, h, Line(types, AREAS), stored))
  {
    NumbersAt(Line(types, AREAS), Octet, 1, 0);
    assert FourBytes(k, h.level);
    if !h.noHeight { LevelBytes(k, stored, h.window.height, h.window.width); }
  }

  /** The type of every cell comes back through the file. */
  lemma TypeBack(k: Codec, h: LiquidHeader, types: array2<nat>, stored: seq<real>, y: nat, x: nat)
    requires types.Length0 == AREAS && types.Length1 == AREAS && F.LiquidFits(LiquidOf(k, h, Line(types, AREAS), stored))
    requires y < AREAS && x < AREAS && GetType(h, types, y, x) == types[y, x]
    ensures ServerType(LiquidOf(k, h, Line(types, AREAS), stored), y, x) == types[y, x]
  {
    LineAt(types, AREAS, y, x);
    NumbersAt(Line(types, AREAS), Octet, 1, y * 16 + x);
  }

  /** And so does the level of a cell, as a float has it. */
  lemma LevelBack(k: Codec, h: LiquidHeader, types: seq<nat>, stored: seq<real>, y: nat, x: nat)
    requires F.LiquidFits(LiquidOf(k, h, types, stored))
    requires Sized(k) && (!h.noHeight ==> |stored| == h.window.height * h.window.width)
    ensures
      var (there, served) := GetLiquidLevel(h, stored, y, x);
      ServerLevel(k, LiquidOf(k, h, types, stored), y, x) == if there then (true, k.dec(k.enc(served))) else (false, 0.0)
  {
    var w := h.window;
    if !h.noHeight && w.offsetY <= y < w.offsetY + w.height && w.offsetX <= x < w.offsetX + w.width {
      IndexInside(y - w.offsetY, x - w.offsetX, w.height, w.width);
      SizedLine(k, stored);
      NumbersAt(stored, k.enc, 4, (y - w.offsetY) * w.width + (x - w.offsetX));
    }
  }

  // ----- the whole tile -----

  lemma {:induction false} LinePair<T, U>(a: array2<T>, b: array2<U>, rows: nat, i: nat)
    requires rows <= a.Length0 == b.Length0 && a.Length1 == b.Length1 && i < |Line(a, rows)|
    ensures |Line(a, rows)| == |Line(b, rows)|
    ensures exists y, x :: 0 <= y < rows && 0 <= x < a.Length1 && a[y, x] == Line(a, rows)[i] && b[y, x] == Line(b, rows)[i]
  {
    if rows == 0 {
    } else if i < |Line(a, rows - 1)| {
      LinePair(a, b, rows - 1, i);
    } else {
      var x := i - |Line(a, rows - 1)|;
      assert a[rows - 1, x] == Line(a, rows)[i] && b[rows - 1, x] == Line(b, rows)[i];
    }
  }

  lemma PackedLine(h: HeightHeader, v: array2<real>, q: array2<int>)
    requires v.Length0 == q.Length0 && v.Length1 == q.Length1
    requires h.flags == AS_INT8 || h.flags == AS_INT16 ==>
               h.gridHeight < h.gridMaxHeight && Quantised(v, q, h.gridHeight, h.gridMaxHeight, h.flags)
    ensures LineOk(h, Line(v, v.Length0), Line(q, q.Length0))
  {
    var lv, lq := Line(v, v.Length0), Line(q, q.Length0);
    if h.flags == AS_INT8 || h.flags == AS_INT16 {
      forall i | 0 <= i < |lq|
        ensures lq[i] == Quantise(lv[i], h.gridHeight, Step(h.flags, h.gridHeight, h.gridMaxHeight))
        ensures 0 <= lq[i] <= if h.flags == AS_INT8 then 255 else 65535
      {
        LinePair(v, q, v.Length0, i);
      }
    }
  }

  ghost predicate ArrayExact(k: Codec, a: array2<real>)
    reads a
  {
    forall y, x :: 0 <= y < a.Length0 && 0 <= x < a.Length1 ==> Exact(k, a[y, x])
  }

  lemma LineExact(k: Codec, a: array2<real>)
    requires ArrayExact(k, a)
    ensures AllExact(k, Line(a, a.Length0))
  {
    forall i | 0 <= i < |Line(a, a.Length0)| ensures Exact(k, Line(a, a.Length0)[i]) {
      LineHolds(a, a.Length0, i);
    }
  }

  /** The header names bounds of all heights that are attained (or the values the search starts
      from), and the way to store that these bounds ask for. */
  ghost predicate HeaderTrue(cfg: Config, k: Codec, hs: F.Heights, v8: array2<real>, v9: array2<real>)
    reads v8, v9
  {
    var lo, hi := k.dec(hs.gridHeight), k.dec(hs.gridMaxHeight);
    && hs.flags == HeightFlags(cfg, lo, hi) && lo <= hi && Within(v8, lo, hi) && Within(v9, lo, hi)
    && (lo == Limited(cfg, 20000.0) || Holds(v8, lo) || Holds(v9, lo))
    && (hi == Limited(cfg, -20000.0) || Holds(v8, hi) || Holds(v9, hi))
  }

  /** The server's heights are within the bound of the planes through the grids. */
  ghost predicate HeightsAnswer(k: Codec, hs: F.Heights, v8: array2<real>, v9: array2<real>)
    requires v8.Length0 == v8.Length1 == GRID && v9.Length0 == v9.Length1 == GRID + 1
    reads v8, v9
  {
    && F.HeightsFit(hs)
    && forall row: nat, col: nat, x, y :: row < GRID && col < GRID && 0.0 <= x < 1.0 && 0.0 <= y < 1.0 ==>
         var bound := ErrorBound(hs.flags, k.dec(hs.gridHeight), k.dec(hs.gridMaxHeight));
         -bound <= ServerHeight(k, hs, row, col, x, y) - Plane(x, y)(CellOf(v8, v9, row, col)) <= bound
  }

  lemma CellLine(v8: array2<real>, v9: array2<real>, row: nat, col: nat)
    requires v8.Length0 == v8.Length1 == GRID && v9.Length0 == v9.Length1 == GRID + 1 && row < GRID && col < GRID
    ensures CellAt(Line(v8, GRID), Line(v9, GRID + 1), row, col) == CellOf(v8, v9, row, col)
  {
    LineAt(v8, GRID, row, col);
    LineAt(v9, GRID + 1, row, col);
    LineAt(v9, GRID + 1, row + 1, col);
    LineAt(v9, GRID + 1, row, col + 1);
    LineAt(v9, GRID + 1, row + 1, col + 1);
  }

  /** Heights through the file: packed, written, read and computed with. */
  lemma HeightsThrough(cfg: Config, k: Codec, h: HeightHeader, v8: array2<real>, v9: array2<real>, q8: array2<int>, q9: array2<int>)
    requires v8.Length0 == q8.Length0 == v8.Length1 == q8.Length1 == GRID
    requires v9.Length0 == q9.Length0 == v9.Length1 == q9.Length1 == GRID + 1
    requires Packed(cfg, h, v8, v9, q8, q9)
    requires Exact(k, h.gridHeight) && Exact(k, h.gridMaxHeight) && ArrayExact(k, v8) && ArrayExact(k, v9)
    ensures HeightsAnswer(k, HeightsOf(k, h, Line(v8, GRID), Line(v9, GRID + 1), Line(q8, GRID), Line(q9, GRID + 1)), v8, v9)
  {
    var l8, l9, m8, m9 := Line(v8, GRID), Line(v9, GRID + 1), Line(q8, GRID), Line(q9, GRID + 1);
    PackedLine(h, v8, q8);
    PackedLine(h, v9, q9);
    LineExact(k, v8);
    LineExact(k, v9);
    ServerHeightBack(k, h, l8, l9, m8, m9, 0, 0, 0.0, 0.0);
    forall row: nat, col: nat, x, y | row < GRID && col < GRID && 0.0 <= x < 1.0 && 0.0 <= y < 1.0
      ensures
        var bound := ErrorBound(h.flags, h.gridHeight, h.gridMaxHeight);
        -bound <= ServerHeight(k, HeightsOf(k, h, l8, l9, m8, m9), row, col, x, y) - Plane(x, y)(CellOf(v8, v9, row, col)) <= bound
    {
      ServerHeightBack(k, h, l8, l9, m8, m9, row, col, x, y);
      CellLine(v8, v9, row, col);
      ServedError(cfg, CellOf(v8, v9, row, col), h.gridHeight, h.gridMaxHeight, x, y);
    }
  }

  ghost predicate AreasAnswer(a: F.Area, areas: array2<nat>)
    requires areas.Length0 == AREAS && areas.Length1 == AREAS
    reads areas
  {
    F.AreaFits(a) && forall y: nat, x: nat :: y < AREAS && x < AREAS ==> ServerArea(a, y, x) == areas[y, x]
  }

  lemma AreasThrough(h: AreaHeader, areas: array2<nat>)
    requires areas.Length0 == AREAS && areas.Length1 == AREAS && Below(areas, 0x1_0000) && h.gridArea < 0x1_0000
    requires forall y, x :: 0 <= y < AREAS && 0 <= x < AREAS ==> GetArea(h, areas, y, x) == areas[y, x]
    ensures AreasAnswer(AreaOf(h, Line(areas, AREAS)), areas)
  {
    AreaFitsOf(h, areas);
    forall y: nat, x: nat | y < AREAS && x < AREAS ensures ServerArea(AreaOf(h, Line(areas, AREAS)), y, x) == areas[y, x] {
      AreaBack(h, areas, y, x);
    }
  }

  /** The server's level of a shown cell is the cell's own, or on a surface stored as flat the
      lowest one, which is near. */
  predicate LevelNear(cfg: Config, served: (bool, real), level: real) {
    served.0 && (served.1 == level || 0.0 <= level - served.1 < cfg.flatLiquidDelta)
  }

  ghost predicate LiquidAnswer(cfg: Config, k: Codec, l: F.Liquid, show: array2<bool>, level: array2<real>, types: array2<nat>)
    requires show.Length0 == show.Length1 == GRID && level.Length0 == level.Length1 == GRID + 1
    requires types.Length0 == AREAS && types.Length1 == AREAS
    reads show, level, types
  {
    && F.LiquidFits(l)
    && (forall y: nat, x: nat :: y < AREAS && x < AREAS ==> ServerType(l, y, x) == types[y, x])
    && (forall y: nat, x: nat :: y < GRID && x < GRID && show[y, x] ==> LevelNear(cfg, ServerLevel(k, l, y, x), level[y, x]))
  }

  lemma LiquidThrough(cfg: Config, k: Codec, h: LiquidHeader, g: Gathered, show: array2<bool>, level: array2<real>,
                      types: array2<nat>, beyond: (nat, nat) -> real, stored: seq<real>)
    requires show.Length0 == show.Length1 == GRID && level.Length0 == level.Length1 == GRID + 1
    requires types.Length0 == AREAS && types.Length1 == AREAS && h.kind < 0x1_0000
    requires Sized(k) && Exact(k, h.level) && ArrayExact(k, level)
    requires LiquidPacked(cfg, h, g, show, level)
    requires forall y, x :: 0 <= y < AREAS && 0 <= x < AREAS ==> GetType(h, types, y, x) == types[y, x]
    requires !h.noHeight ==> stored == Rows(At(LevelsOf(level), beyond), h.window, h.window.height)
    ensures LiquidAnswer(cfg, k, LiquidOf(k, h, Line(types, AREAS), stored), show, level, types)
  {
    var l := LiquidOf(k, h, Line(types, AREAS), stored);
    LiquidFitsOf(k, h, types, stored);
    forall y: nat, x: nat | y < AREAS && x < AREAS ensures ServerType(l, y, x) == types[y, x] {
      TypeBack(k, h, types, stored, y, x);
    }
    forall y: nat, x: nat | y < GRID && x < GRID && show[y, x]
      ensures LevelNear(cfg, ServerLevel(k, l, y, x), level[y, x])
    {
      LiquidServed(cfg, h, g, show, level, beyond, stored, y, x);
      LevelBack(k, h, Line(types, AREAS), stored, y, x);
    }
  }

  /** Writes a grid as it lies in memory. */
  method LineOf<T>(a: array2<T>) returns (s: seq<T>)
    ensures s == Line(a, a.Length0)
  {
    s := [];
    for y := 0 to a.Length0
      invariant s == Line(a, y)
    {
      var row := [];
      for x := 0 to a.Length1
        invariant |row| == x && forall j :: 0 <= j < x ==> row[j] == a[y, j]
      {
        row := row + [a[y, x]];
      }
      assert row == Row(a, y);
      s := s + row;
    }
  }

  /** What the limit and the search for bounds can add to the heights. */
  ghost predicate LimitsExact(k: Codec, cfg: Config) {
    Sized(k) && Exact(k, 20000.0) && Exact(k, -20000.0) && Exact(k, cfg.useMinHeight)
  }

  lemma BoundExact(cfg: Config, k: Codec, v8: array2<real>, v9: array2<real>, b: real, first: real)
    requires LimitsExact(k, cfg) && Exact(k, first) && ArrayExact(k, v8) && ArrayExact(k, v9)
    requires b == Limited(cfg, first) || Holds(v8, b) || Holds(v9, b)
    ensures Exact(k, b)
  {
  }

  method PackTileHeights(cfg: Config, k: Codec, v8: array2<real>, v9: array2<real>, q8: array2<int>, q9: array2<int>)
    returns (hs: F.Heights)
    requires v8.Length0 == q8.Length0 == v8.Length1 == q8.Length1 == GRID
    requires v9.Length0 == q9.Length0 == v9.Length1 == q9.Length1 == GRID + 1
    requires v8 != v9 && q8 != q9 && LimitsExact(k, cfg) && ArrayExact(k, v8) && ArrayExact(k, v9)
    modifies v8, v9, q8, q9
    ensures Lifted(cfg, v8) && Lifted(cfg, v9) && HeaderTrue(cfg, k, hs, v8, v9) && HeightsAnswer(k, hs, v8, v9)
  {
    var header := PackHeights(cfg, v8, v9, q8, q9);
    forall y, x | 0 <= y < GRID && 0 <= x < GRID ensures Exact(k, v8[y, x]) {
      assert Exact(k, old(v8[y, x]));
    }
    forall y, x | 0 <= y <= GRID && 0 <= x <= GRID ensures Exact(k, v9[y, x]) {
      assert Exact(k, old(v9[y, x]));
    }
    BoundExact(cfg, k, v8, v9, header.gridHeight, 20000.0);
    BoundExact(cfg, k, v8, v9, header.gridMaxHeight, -20000.0);
    HeightsThrough(cfg, k, header, v8, v9, q8, q9);
    var l8 := LineOf(v8);
    var l9 := LineOf(v9);
    var m8 := LineOf(q8);
    var m9 := LineOf(q9);
    hs := HeightsOf(k, header, l8, l9, m8, m9);
  }

  method PackTileAreas(areas: array2<nat>) returns (a: F.Area)
    requires areas.Length0 == AREAS && areas.Length1 == AREAS && Below(areas, 0x1_0000)
    ensures AreasAnswer(a, areas)
  {
    var header := PackAreas(areas);
    assert GetArea(header, areas, 0, 0) == areas[0, 0];
    AreasThrough(header, areas);
    var line := LineOf(areas);
    a := AreaOf(header, line);
  }

  /** Where no cell shows liquid the rows that are written lie beyond the grid. */
  method PackTileLiquid(cfg: Config, k: Codec, show: array2<bool>, level: array2<real>, beyond: (nat, nat) -> real,
                        types: array2<nat>)
    returns (l: Option<F.Liquid>)
    requires show.Length0 == show.Length1 == GRID && level.Length0 == level.Length1 == GRID + 1
    requires types.Length0 == AREAS && types.Length1 == AREAS && Below(types, 0x100)
    requires LimitsExact(k, cfg) && ArrayExact(k, level)
    modifies level
    ensures l.None? <==> Same(types, 0)
    ensures l.Some? ==> LiquidAnswer(cfg, k, l.value, show, level, types)
    ensures forall y, x :: 0 <= y < GRID && 0 <= x < GRID && show[y, x] ==> level[y, x] == old(level[y, x])
  {
    var header, g := PackLiquid(cfg, show, level, types);
    if header == None {
      l := None;
    } else {
      var h := header.value;
      forall y, x | 0 <= y <= GRID && 0 <= x <= GRID ensures Exact(k, level[y, x]) {
        assert Exact(k, old(level[y, x]));
      }
      assert Exact(k, h.level);
      var stored := [];
      if !h.noHeight {
        stored := StoreLevels(level, beyond, h.window);
      }
      LiquidThrough(cfg, k, h, g, show, level, types, beyond, stored);
      var line := LineOf(types);
      l := Some(LiquidOf(k, h, line, stored));
    }
  }

  /** The tile from end to end: what a server that accepts the build reads from the file answers for
      every area, every liquid type and level, and every height within the bound. */
  method ConvertADT(cfg: Config, k: Codec, build: nat, areas: array2<nat>, v8: array2<real>, v9: array2<real>,
                    q8: array2<int>, q9: array2<int>, show: array2<bool>, level: array2<real>, beyond: (nat, nat) -> real,
                    types: array2<nat>, holes: F.Bytes, ghost accepts: nat -> bool)
    returns (file: F.Bytes)
    requires areas.Length0 == AREAS && areas.Length1 == AREAS && Below(areas, 0x1_0000)
    requires v8.Length0 == q8.Length0 == v8.Length1 == q8.Length1 == GRID
    requires v9.Length0 == q9.Length0 == v9.Length1 == q9.Length1 == GRID + 1
    requires show.Length0 == show.Length1 == GRID && level.Length0 == level.Length1 == GRID + 1
    requires types.Length0 == AREAS && types.Length1 == AREAS && Below(types, 0x100)
    requires v8 != v9 && q8 != q9 && level != v8 && level != v9 && types != areas
    requires LimitsExact(k, cfg) && ArrayExact(k, v8) && ArrayExact(k, v9) && ArrayExact(k, level)
    requires build < 0x1_0000_0000 && |holes| == 512
    modifies v8, v9, q8, q9, level
    ensures Lifted(cfg, v8) && Lifted(cfg, v9)
    ensures forall y, x :: 0 <= y < GRID && 0 <= x < GRID && show[y, x] ==> level[y, x] == old(level[y, x])
    ensures !accepts(build) ==> F.Load(file, accepts) == None
    ensures accepts(build) ==>
              var m := F.Load(file, accepts);
              && m.Some? && AreasAnswer(m.value.area, areas)
              && HeaderTrue(cfg, k, m.value.heights, v8, v9) && HeightsAnswer(k, m.value.heights, v8, v9)
              && (m.value.liquid.None? <==> Same(types, 0))
              && (m.value.liquid.Some? ==> LiquidAnswer(cfg, k, m.value.liquid.value, show, level, types))
  {
    var area := PackTileAreas(areas);
    var heights := PackTileHeights(cfg, k, v8, v9, q8, q9);
    var liquid := PackTileLiquid(cfg, k, show, level, beyond, types);
    var tile := F.Tile(build, area, heights, liquid, holes);
    F.RoundTrip(tile, accepts);
    file := F.Write(tile);
  }
}
