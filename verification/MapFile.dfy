/** The map file: written by the extractor (contrib/extractor/System.cpp), read by the server
    (src/game/GridMap.cpp). Files are sequences of bytes; a float is four bytes that neither
    side looks into. */
module MapFile {
  import opened Options

  type Bytes = seq<nat>

  const MAPS: Bytes := [77, 65, 80, 83]
  const VERSION: Bytes := [118, 49, 46, 49]
  const AREA: Bytes := [65, 82, 69, 65]
  const MHGT: Bytes := [77, 72, 71, 84]
  const MLIQ: Bytes := [77, 76, 73, 81]

  const FILE_HEADER: nat := 44
  const AREA_HEADER: nat := 8
  const HEIGHT_HEADER: nat := 16
  const LIQUID_HEADER: nat := 16
  const V9_CELLS: nat := 129 * 129
  const V8_CELLS: nat := 128 * 128

  predicate Bit(flags: nat, mask: nat)
    requires mask > 0
  {
    flags / mask % 2 == 1
  }

  predicate NoArea(flags: nat) { Bit(flags, 1) }

  predicate NoHeight(flags: nat) { Bit(flags, 1) }

  predicate AsInt16(flags: nat) { Bit(flags, 2) }

  predicate AsInt8(flags: nat) { Bit(flags, 4) }

  predicate NoType(flags: nat) { Bit(flags, 1) }

  predicate NoLiquidHeight(flags: nat) { Bit(flags, 2) }

  /** The area part: one area for the whole tile, or one for every cell. */
  datatype Area = Area(flags: nat, gridArea: nat, cells: Bytes)

  /** The height part. The grids hold one, two or four bytes for a height, or nothing. */
  datatype Heights = Heights(flags: nat, gridHeight: Bytes, gridMaxHeight: Bytes, v9: Bytes, v8: Bytes)

  /** The liquid part: types of all cells or one, and heights of a window or one level. */
  datatype Liquid = Liquid(
    flags: nat, kind: nat, offsetX: nat, offsetY: nat, width: nat, height: nat, level: Bytes, types: Bytes, levels: Bytes)

  datatype Tile = Tile(build: nat, area: Area, heights: Heights, liquid: Option<Liquid>, holes: Bytes)

  /** Bytes for one stored height. */
  function HeightBytes(flags: nat): nat {
    if NoHeight(flags) then 0 else if AsInt16(flags) then 2 else if AsInt8(flags) then 1 else 4
  }

  predicate AreaFits(a: Area) {
    a.flags < 0x1_0000 && a.gridArea < 0x1_0000 && |a.cells| == if NoArea(a.flags) then 0 else 512
  }

  predicate HeightsFit(h: Heights) {
    && h.flags < 0x1_0000_0000 && |h.gridHeight| == 4 && |h.gridMaxHeight| == 4
    && |h.v9| == HeightBytes(h.flags) * V9_CELLS && |h.v8| == HeightBytes(h.flags) * V8_CELLS
  }

  predicate LiquidFits(l: Liquid) {
    && l.flags < 0x1_0000 && l.kind < 0x1_0000
    && l.offsetX < 256 && l.offsetY < 256 && l.width < 256 && l.height < 256 && |l.level| == 4
    && |l.types| == (if NoType(l.flags) then 0 else 256)
    && |l.levels| == if NoLiquidHeight(l.flags) then 0 else 4 * l.width * l.height
  }

  /** The arrays a tile carries are of the sizes its flags announce. */
  predicate Fits(t: Tile) {
    && t.build < 0x1_0000_0000 && AreaFits(t.area) && HeightsFit(t.heights)
    && (t.liquid.Some? ==> LiquidFits(t.liquid.value)) && |t.holes| == 512
  }

  // ----- writing -----

  function U16(n: nat): (b: Bytes)
    ensures |b| == 2
  {
    [n % 256, n / 256 % 256]
  }

  function U32(n: nat): (b: Bytes)
    ensures |b| == 4
  {
    [n % 256, n / 256 % 256, n / 0x1_0000 % 256, n / 0x100_0000 % 256]
  }

  /** Where each part lies. */
  datatype Header = Header(
    areaOffset: nat, areaSize: nat, heightOffset: nat, heightSize: nat,
    liquidOffset: nat, liquidSize: nat, holesOffset: nat, holesSize: nat)

  /** The sizes and offsets as they are summed up while the parts are prepared. */
  function Plan(t: Tile): Header {
    var areaSize := AREA_HEADER + if NoArea(t.area.flags) then 0 else 512;
    var heightOffset := FILE_HEADER + areaSize;
    var heightSize := HEIGHT_HEADER + HeightBytes(t.heights.flags) * (V9_CELLS + V8_CELLS);
    var (liquidOffset, liquidSize) :=
      match t.liquid
      case None => (0, 0)
      case Some(l) =>
        (heightOffset + heightSize,
         LIQUID_HEADER + (if NoType(l.flags) then 0 else 256) + if NoLiquidHeight(l.flags) then 0 else 4 * l.width * l.height);
    Header(FILE_HEADER, areaSize, heightOffset, heightSize, liquidOffset, liquidSize,
           if liquidOffset != 0 then liquidOffset + liquidSize else heightOffset + heightSize, 512)
  }

  function WriteHeader(build: nat, h: Header): (b: Bytes)
    ensures |b| == FILE_HEADER
  {
    MAPS + VERSION + U32(build)
    + U32(h.areaOffset) + U32(h.areaSize) + U32(h.heightOffset) + U32(h.heightSize)
    + U32(h.liquidOffset) + U32(h.liquidSize) + U32(h.holesOffset) + U32(h.holesSize)
  }

  function AreaHeader(a: Area): (b: Bytes)
    ensures |b| == AREA_HEADER
  {
    AREA + U16(a.flags) + U16(a.gridArea)
  }

  function WriteArea(a: Area): Bytes {
    AreaHeader(a) + a.cells
  }

  function HeightHeader(h: Heights): Bytes {
    MHGT + U32(h.flags) + h.gridHeight + h.gridMaxHeight
  }

  function WriteHeights(h: Heights): Bytes {
    HeightHeader(h) + h.v9 + h.v8
  }

  function LiquidHeader(l: Liquid): Bytes {
    MLIQ + U16(l.flags) + U16(l.kind) + [l.offsetX, l.offsetY, l.width, l.height] + l.level
  }

  function WriteLiquid(l: Liquid): Bytes {
    LiquidHeader(l) + l.types + l.levels
  }

  function LiquidPart(t: Tile): Bytes {
    if t.liquid.Some? then WriteLiquid(t.liquid.value) else []
  }

  /** The file, part by part. */
  function Write(t: Tile): Bytes {
    WriteHeader(t.build, Plan(t)) + WriteArea(t.area) + WriteHeights(t.heights) + LiquidPart(t) + t.holes
  }

  // ----- reading -----

  function Int16(b: Bytes): nat
    requires |b| == 2
  {
    b[0] + 256 * b[1]
  }

  function Int32(b: Bytes): nat
    requires |b| == 4
  {
    b[0] + 256 * b[1] + 0x1_0000 * b[2] + 0x100_0000 * b[3]
  }

  /** Bytes of a file, if it is long enough. */
  function Read(file: Bytes, offset: nat, n: nat): (r: Option<Bytes>)
    ensures r.Some? ==> |r.value| == n
  {
    if offset + n <= |file| then Some(file[offset..offset + n]) else None
  }

  function LoadArea(file: Bytes, offset: nat): Option<Area> {
    match Read(file, offset, AREA_HEADER)
    case None => None
    case Some(h) =>
      if h[0..4] != AREA then None
      else
        var flags := Int16(h[4..6]);
        if NoArea(flags) then Some(Area(flags, Int16(h[6..8]), []))
        else
          match Read(file, offset + AREA_HEADER, 512)
          case None => None
          case Some(cells) => Some(Area(flags, Int16(h[6..8]), cells))
  }

  function LoadHeights(file: Bytes, offset: nat): Option<Heights> {
    match Read(file, offset, HEIGHT_HEADER)
    case None => None
    case Some(h) =>
      if h[0..4] != MHGT then None
      else
        var flags := Int32(h[4..8]);
        var n := HeightBytes(flags);
        match Read(file, offset + HEIGHT_HEADER, n * V9_CELLS)
        case None => None
        case Some(v9) =>
          match Read(file, offset + HEIGHT_HEADER + n * V9_CELLS, n * V8_CELLS)
          case None => None
          case Some(v8) => Some(Heights(flags, h[8..12], h[12..16], v9, v8))
  }

  function LoadLiquid(file: Bytes, offset: nat): Option<Liquid> {
    match Read(file, offset, LIQUID_HEADER)
    case None => None
    case Some(h) =>
      if h[0..4] != MLIQ then None
      else
        var flags := Int16(h[4..6]);
        var typeBytes := if NoType(flags) then 0 else 256;
        match Read(file, offset + LIQUID_HEADER, typeBytes)
        case None => None
        case Some(types) =>
          match Read(file, offset + LIQUID_HEADER + typeBytes, if NoLiquidHeight(flags) then 0 else 4 * h[10] * h[11])
          case None => None
          case Some(levels) =>
            Some(Liquid(flags, Int16(h[6..8]), h[8], h[9], h[10], h[11], h[12..16], types, levels))
  }

  /** What the server holds of a tile. */
  datatype GridMap = GridMap(area: Area, heights: Heights, liquid: Option<Liquid>)

  /** The server wants a known build and reads each part at the offset the header names; it
      has no use for the holes. */
  function Load(file: Bytes, accepts: nat -> bool): Option<GridMap> {
    match Read(file, 0, 36)
    case None => None
    case Some(h) =>
      if h[0..4] != MAPS || h[4..8] != VERSION || !accepts(Int32(h[8..12])) then None
      else
        var area := LoadArea(file, Int32(h[12..16]));
        var heights := LoadHeights(file, Int32(h[20..24]));
        var liquidOffset := Int32(h[28..32]);
        if area == None || heights == None then None
        else if liquidOffset == 0 then Some(GridMap(area.value, heights.value, None))
        else
          match LoadLiquid(file, liquidOffset)
          case None => None
          case Some(l) => Some(GridMap(area.value, heights.value, Some(l)))
  }

  // ----- the theorems -----

  lemma RoundTrip16(n: nat)
    requires n < 0x1_0000
    ensures Int16(U16(n)) == n
  {
  }

  lemma RoundTrip32(n: nat)
    requires n < 0x1_0000_0000
    ensures Int32(U32(n)) == n
  {
  }

  /** The parts of a written file, in the place the header gives them. */
  ghost predicate Placed(file: Bytes, offset: nat, size: nat, part: Bytes) {
    offset + size <= |file| && file[offset..offset + size] == part
  }

  lemma Middle(a: Bytes, b: Bytes, c: Bytes)
    ensures Placed(a + b + c, |a|, |b|, b)
  {
  }

  lemma Sizes(t: Tile)
    requires Fits(t)
    ensures |WriteArea(t.area)| == Plan(t).areaSize && |WriteHeights(t.heights)| == Plan(t).heightSize
    ensures |LiquidPart(t)| == Plan(t).liquidSize
  {
  }

  lemma Offsets(t: Tile)
    requires Fits(t)
    ensures
      var h, a, b, c := Plan(t), |WriteArea(t.area)|, |WriteHeights(t.heights)|, |LiquidPart(t)|;
      && h.areaOffset == FILE_HEADER && h.heightOffset == FILE_HEADER + a && h.holesOffset == FILE_HEADER + a + b + c
      && h.liquidOffset == if t.liquid.Some? then FILE_HEADER + a + b else 0
  {
    Sizes(t);
  }

  /** For every combination of flags the offsets and sizes in the header are exactly the byte
      ranges of the parts, one after the other without gaps. */
  lemma Layout(t: Tile)
    requires Fits(t)
    ensures
      var file, h := Write(t), Plan(t);
      && Placed(file, 0, FILE_HEADER, WriteHeader(t.build, h))
      && h.areaOffset == FILE_HEADER && Placed(file, h.areaOffset, h.areaSize, WriteArea(t.area))
      && h.heightOffset == h.areaOffset + h.areaSize && Placed(file, h.heightOffset, h.heightSize, WriteHeights(t.heights))
      && (t.liquid.Some? ==>
            h.liquidOffset == h.heightOffset + h.heightSize && Placed(file, h.liquidOffset, h.liquidSize, WriteLiquid(t.liquid.value)))
      && (t.liquid.None? ==> h.liquidOffset == 0 == h.liquidSize)
      && Placed(file, h.holesOffset, h.holesSize, t.holes) && h.holesOffset + h.holesSize == |file|
  {
    Sizes(t);
    Offsets(t);
    LayoutOf(t, Plan(t), WriteArea(t.area), WriteHeights(t.heights), LiquidPart(t));
  }

  lemma LayoutOf(t: Tile, h: Header, a: Bytes, b: Bytes, c: Bytes)
    requires h == Plan(t) && a == WriteArea(t.area) && b == WriteHeights(t.heights) && c == LiquidPart(t)
    ensures
      var file := Write(t);
      && Placed(file, 0, FILE_HEADER, WriteHeader(t.build, h)) && Placed(file, FILE_HEADER, |a|, a)
      && Placed(file, FILE_HEADER + |a|, |b|, b) && Placed(file, FILE_HEADER + |a| + |b|, |c|, c)
      && Placed(file, FILE_HEADER + |a| + |b| + |c|, |t.holes|, t.holes)
      && |file| == FILE_HEADER + |a| + |b| + |c| + |t.holes|
  {
    Parts(WriteHeader(t.build, h), a, b, c, t.holes);
  }

  lemma PartAt(file: Bytes, before: Bytes, part: Bytes, after: Bytes)
    requires file == before + part + after
    ensures Placed(file, |before|, |part|, part)
  {
    Middle(before, part, after);
  }

  lemma Parts(a: Bytes, b: Bytes, c: Bytes, d: Bytes, e: Bytes)
    ensures
      var file := a + b + c + d + e;
      && Placed(file, 0, |a|, a) && Placed(file, |a|, |b|, b) && Placed(file, |a| + |b|, |c|, c)
      && Placed(file, |a| + |b| + |c|, |d|, d) && Placed(file, |a| + |b| + |c| + |d|, |e|, e)
      && |file| == |a| + |b| + |c| + |d| + |e|
  {
    var file := a + b + c + d + e;
    assert Placed(file, 0, |a|, a) by { PartAt(file, [], a, b + c + d + e); }
    assert Placed(file, |a|, |b|, b) by { PartAt(file, a, b, c + d + e); }
    assert Placed(file, |a| + |b|, |c|, c) by { PartAt(file, a + b, c, d + e); }
    assert Placed(file, |a| + |b| + |c|, |d|, d) by { PartAt(file, a + b + c, d, e); }
    assert Placed(file, |a| + |b| + |c| + |d|, |e|, e) by { PartAt(file, a + b + c + d, e, []); }
  }

  lemma Slice(file: Bytes, offset: nat, size: nat, from: nat, n: nat)
    requires offset + size <= |file| && from + n <= size
    ensures file[offset..offset + size][from..from + n] == file[offset + from..offset + from + n]
  {
    var part := file[offset..offset + size];
    var inner, outer := part[from..from + n], file[offset + from..offset + from + n];
    forall k | 0 <= k < n ensures inner[k] == outer[k] {
      assert inner[k] == part[from + k] == file[offset + (from + k)];
    }
    assert inner == outer;
  }

  /** The middle of a placed part is read where it should be. */
  lemma Inside(file: Bytes, offset: nat, a: Bytes, b: Bytes, c: Bytes)
    requires Placed(file, offset, |a| + |b| + |c|, a + b + c)
    ensures Read(file, offset + |a|, |b|) == Some(b)
  {
    Slice(file, offset, |a| + |b| + |c|, |a|, |b|);
    Middle(a, b, c);
  }

  lemma LoadAreaBack(file: Bytes, offset: nat, a: Area)
    requires AreaFits(a) && Placed(file, offset, |WriteArea(a)|, WriteArea(a))
    ensures LoadArea(file, offset) == Some(a)
  {
    var h := AreaHeader(a);
    assert WriteArea(a) == [] + h + a.cells == h + a.cells + [];
    Inside(file, offset, [], h, a.cells);
    Inside(file, offset, h, a.cells, []);
    assert h[0..4] == AREA && h[4..6] == U16(a.flags) && h[6..8] == U16(a.gridArea);
    RoundTrip16(a.flags);
    RoundTrip16(a.gridArea);
  }

  lemma HeightHeaderBack(x: Heights)
    requires HeightsFit(x)
    ensures
      var h := HeightHeader(x);
      && |h| == HEIGHT_HEADER && h[0..4] == MHGT && Int32(h[4..8]) == x.flags
      && h[8..12] == x.gridHeight && h[12..16] == x.gridMaxHeight
  {
    var h := HeightHeader(x);
    assert h[4..8] == U32(x.flags);
    RoundTrip32(x.flags);
  }

  lemma LoadHeightsBack(file: Bytes, offset: nat, x: Heights)
    requires HeightsFit(x) && Placed(file, offset, |WriteHeights(x)|, WriteHeights(x))
    ensures LoadHeights(file, offset) == Some(x)
  {
    var h := HeightHeader(x);
    HeightHeaderBack(x);
    assert WriteHeights(x) == [] + h + (x.v9 + x.v8) == h + x.v9 + x.v8 == h + x.v9 + x.v8 + [];
    Inside(file, offset, [], h, x.v9 + x.v8);
    Inside(file, offset, h, x.v9, x.v8);
    Inside(file, offset, h + x.v9, x.v8, []);
  }

  lemma LiquidHeaderBack(l: Liquid)
    requires LiquidFits(l)
    ensures
      var h := LiquidHeader(l);
      && |h| == LIQUID_HEADER && h[0..4] == MLIQ && Int16(h[4..6]) == l.flags && Int16(h[6..8]) == l.kind
      && h[8] == l.offsetX && h[9] == l.offsetY && h[10] == l.width && h[11] == l.height && h[12..16] == l.level
  {
    var h := LiquidHeader(l);
    assert h[4..6] == U16(l.flags) && h[6..8] == U16(l.kind);
    RoundTrip16(l.flags);
    RoundTrip16(l.kind);
  }

  lemma LoadLiquidBack(file: Bytes, offset: nat, l: Liquid)
    requires LiquidFits(l) && Placed(file, offset, |WriteLiquid(l)|, WriteLiquid(l))
    ensures LoadLiquid(file, offset) == Some(l)
  {
    var h := LiquidHeader(l);
    LiquidHeaderBack(l);
    assert WriteLiquid(l) == [] + h + (l.types + l.levels) == h + l.types + l.levels == h + l.types + l.levels + [];
    Inside(file, offset, [], h, l.types + l.levels);
    Inside(file, offset, h, l.types, l.levels);
    Inside(file, offset, h + l.types, l.levels, []);
  }

  lemma HeaderBack(build: nat, h: Header)
    requires build < 0x1_0000_0000 && h.areaOffset < 0x1_0000_0000 && h.heightOffset < 0x1_0000_0000 && h.liquidOffset < 0x1_0000_0000
    ensures
      var b := WriteHeader(build, h);
      && b[0..4] == MAPS && b[4..8] == VERSION && Int32(b[8..12]) == build
      && Int32(b[12..16]) == h.areaOffset && Int32(b[20..24]) == h.heightOffset && Int32(b[28..32]) == h.liquidOffset
  {
    var b := WriteHeader(build, h);
    assert b[8..12] == U32(build) && b[12..16] == U32(h.areaOffset) && b[20..24] == U32(h.heightOffset) && b[28..32] == U32(h.liquidOffset);
    RoundTrip32(build);
    RoundTrip32(h.areaOffset);
    RoundTrip32(h.heightOffset);
    RoundTrip32(h.liquidOffset);
  }

  lemma PlanBounds(t: Tile)
    requires Fits(t)
    ensures var h := Plan(t); h.areaOffset < 0x1_0000_0000 && h.heightOffset < 0x1_0000_0000 && h.liquidOffset < 0x1_0000_0000
  {
  }

  /** The server reads back every tile as it was written, whatever its flags, and rejects it
      exactly when it does not accept the build. */
  lemma RoundTrip(t: Tile, accepts: nat -> bool)
    requires Fits(t)
    ensures Load(Write(t), accepts) ==
            if accepts(t.build) then Some(GridMap(t.area, t.heights, t.liquid)) else None
  {
    var file, h := Write(t), Plan(t);
    var header := WriteHeader(t.build, h);
    Layout(t);
    Sizes(t);
    PlanBounds(t);
    HeaderBack(t.build, h);
    Slice(file, 0, FILE_HEADER, 0, 36);
    assert Read(file, 0, 36).value == header[0..36];
    HeaderFields(header);
    LoadAreaBack(file, h.areaOffset, t.area);
    LoadHeightsBack(file, h.heightOffset, t.heights);
    if t.liquid.Some? {
      LoadLiquidBack(file, h.liquidOffset, t.liquid.value);
    }
  }

  lemma HeaderFields(b: Bytes)
    requires |b| == FILE_HEADER
    ensures
      var h := b[0..36];
      && h[0..4] == b[0..4] && h[4..8] == b[4..8] && h[8..12] == b[8..12] && h[12..16] == b[12..16]
      && h[20..24] == b[20..24] && h[28..32] == b[28..32]
  {
    Slice(b, 0, 36, 0, 4);
    Slice(b, 0, 36, 4, 4);
    Slice(b, 0, 36, 8, 4);
    Slice(b, 0, 36, 12, 4);
    Slice(b, 0, 36, 20, 4);
    Slice(b, 0, 36, 28, 4);
  }
}
