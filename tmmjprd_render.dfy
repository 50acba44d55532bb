/**
 * The custom tile renderer of the tmmjprd driver (src/mame/drivers/tmmjprd.c):
 * ttmjprd_draw_tile plots one cell straight from graphics ROM at a byte
 * address, and ttmjprd_draw_tilemap lays a 64x64 grid of such cells under a
 * scroll offset. Each method is specified pixel by pixel by a function of the
 * inputs (TilePlot, Layer); the lemmas state what those functions promise.
 */
module TmmjprdRender {
  import opened Words
  import opened Wrappers
  import opened TmmjprdDecode

  /** One byte of graphics ROM. */
  type Byte = b: int | 0 <= b < 0x100

  /** One pixel of the 16-bit indexed bitmap. */
  type Pen = p: int | 0 <= p < 0x1_0000

  /** MAME's rectangle: inclusive bounds. */
  datatype Rect = Rect(minX: int, maxX: int, minY: int, maxY: int)

  /** The clip rectangle lies within a bitmap of the given height and width. */
  predicate ClipInside(clip: Rect, height: int, width: int) {
    0 <= clip.minX && clip.maxX < width && 0 <= clip.minY && clip.maxY < height
  }

  /** A transparent pixel leaves what is underneath; a plotted one replaces it. */
  function Overlay(o: Option<Pen>, under: Pen): Pen {
    o.GetOr(under)
  }

  // ---------------------------------------------------------------- one cell

  /** ROM bytes per row: one per pixel at 8bpp, one per pixel pair at 4bpp. */
  function RowBytes(sizex: nat, depth8: bool): nat {
    if depth8 then sizex else (sizex + 1) / 2
  }

  /** Columns a row covers: at 4bpp every byte plots two columns, so an odd width overshoots by one. */
  function Span(sizex: nat, depth8: bool): nat {
    if depth8 then sizex else 2 * RowBytes(sizex, false)
  }

  /** The four early returns: the cell lies off one edge of the clip. */
  predicate Rejected(clip: Rect, x: int, y: int, sizex: nat, sizey: nat) {
    x > clip.maxX || x + sizex < clip.minX || y > clip.maxY || y + sizey < clip.minY
  }

  /** The per-pixel clip test: strictly inside, so the clip's border is never drawn. */
  predicate StrictlyInside(clip: Rect, px: int, py: int) {
    clip.minX < px < clip.maxX && clip.minY < py < clip.maxY
  }

  predicate InFootprint(x: int, y: int, sizex: nat, sizey: nat, depth8: bool, px: int, py: int) {
    y <= py < y + sizey && x <= px < x + Span(sizex, depth8)
  }

  /** The ROM byte a footprint pixel comes from: the running count of the pixel loop. */
  function ByteIndex(d: TileDesc, x: int, y: int, sizex: nat, px: int, py: int): int {
    d.addr * 32 + (py - y) * RowBytes(sizex, d.depth8) + (if d.depth8 then px - x else (px - x) / 2)
  }

  /** Every byte the cell may read lies in the ROM. */
  predicate RomCovers(rom: seq<Byte>, d: TileDesc, sizex: nat, sizey: nat) {
    d.addr * 32 + sizey * RowBytes(sizex, d.depth8) <= |rom|
  }

  /** What the C may read: nothing when the cell is rejected, its whole extent otherwise. */
  predicate CellReadable(clip: Rect, x: int, y: int, sizex: nat, sizey: nat, d: TileDesc, rom: seq<Byte>) {
    Rejected(clip, x, y, sizex, sizey) || RomCovers(rom, d, sizex, sizey)
  }

  /**
   * The pen one ROM byte gives at column offset col. At 4bpp the high nibble
   * goes to even offsets and the low nibble to odd ones, nibble 15 is
   * transparent and the colour bank is not applied; at 8bpp byte 255 is
   * transparent and the colour is the high byte of the pen.
   */
  function PixelValue(d: TileDesc, b: Byte, col: int): (p: Option<Pen>)
    requires ValidTileDesc(d)
  {
    if d.depth8 then
      if b == 255 then None else Some(b + d.colour * 256)
    else
      var nibble := if col % 2 == 0 then b / 16 else b % 16;
      if nibble == 15 then None else Some(nibble)
  }

  /** Index arithmetic of a row-major block: row r of width w, column c. */
  lemma RowMajorBound(r: int, rows: int, w: int, c: int)
    requires 0 <= r < rows && 0 <= c < w
    ensures 0 <= r * w + c < rows * w
  {
    assert r * w <= (rows - 1) * w by {
      MulMono(r, rows - 1, w);
    }
  }

  lemma MulMono(a: int, b: int, w: int)
    requires a <= b && 0 <= w
    ensures a * w <= b * w
  {
    assert b * w - a * w == (b - a) * w;
  }

  lemma FootprintIndex(d: TileDesc, x: int, y: int, sizex: nat, sizey: nat, px: int, py: int)
    requires ValidTileDesc(d)
    requires InFootprint(x, y, sizex, sizey, d.depth8, px, py)
    ensures d.addr * 32 <= ByteIndex(d, x, y, sizex, px, py) < d.addr * 32 + sizey * RowBytes(sizex, d.depth8)
  {
    var c := if d.depth8 then px - x else (px - x) / 2;
    assert 0 <= c < RowBytes(sizex, d.depth8);
    RowMajorBound(py - y, sizey, RowBytes(sizex, d.depth8), c);
  }

  /**
   * Specification of ttmjprd_draw_tile at one pixel: Some(pen) when the cell
   * plots pen there, None when the pixel keeps its old value.
   */
  function TilePlot(clip: Rect, x: int, y: int, sizex: nat, sizey: nat, d: TileDesc,
                    rom: seq<Byte>, px: int, py: int): (p: Option<Pen>)
    requires ValidTileDesc(d) && CellReadable(clip, x, y, sizex, sizey, d, rom)
  {
    if Rejected(clip, x, y, sizex, sizey) || !InFootprint(x, y, sizex, sizey, d.depth8, px, py)
       || !StrictlyInside(clip, px, py)
    then None
    else
      FootprintIndex(d, x, y, sizex, sizey, px, py);
      PixelValue(d, rom[ByteIndex(d, x, y, sizex, px, py)], px - x)
  }

  /**
   * ttmjprd_draw_tile: the cell's pixels are plotted in place with a running
   * ROM byte counter; every pixel ends as TilePlot says.
   */
  method DrawTile(bitmap: array2<Pen>, clip: Rect, x: int, y: int, sizex: nat, sizey: nat,
                  tiledata: Word, rom: seq<Byte>)
    requires ClipInside(clip, bitmap.Length0, bitmap.Length1)
    requires CellReadable(clip, x, y, sizex, sizey, DecodeTile(tiledata), rom)
    modifies bitmap
    ensures forall py, px :: 0 <= py < bitmap.Length0 && 0 <= px < bitmap.Length1 ==>
      bitmap[py, px] == Overlay(TilePlot(clip, x, y, sizex, sizey, DecodeTile(tiledata), rom, px, py), old(bitmap[py, px]))
  {
    var d := DecodeTile(tiledata);
    if x > clip.maxX {
      return;
    }
    if x + sizex < clip.minX {
      return;
    }
    if y > clip.maxY {
      return;
    }
    if y + sizey < clip.minY {
      return;
    }
    var count := 0;
    var drawy := y;
    while drawy < y + sizey
      invariant y <= drawy <= y + sizey
      invariant count == (drawy - y) * RowBytes(sizex, d.depth8)
      invariant forall i, j :: 0 <= i < bitmap.Length0 && 0 <= j < bitmap.Length1 ==>
        bitmap[i, j] == if i < drawy then Overlay(TilePlot(clip, x, y, sizex, sizey, d, rom, j, i), old(bitmap[i, j]))
                        else old(bitmap[i, j])
    {
      count := DrawTileRow(bitmap, clip, x, y, sizex, sizey, d, rom, drawy, count);
      drawy := drawy + 1;
    }
  }

  /** The inner loop of ttmjprd_draw_tile: row drawy of the cell, reading on from byte count0. */
  method DrawTileRow(bitmap: array2<Pen>, clip: Rect, x: int, y: int, sizex: nat, sizey: nat,
                     d: TileDesc, rom: seq<Byte>, drawy: int, count0: int) returns (count: int)
    requires ClipInside(clip, bitmap.Length0, bitmap.Length1)
    requires ValidTileDesc(d) && !Rejected(clip, x, y, sizex, sizey) && RomCovers(rom, d, sizex, sizey)
    requires y <= drawy < y + sizey && count0 == (drawy - y) * RowBytes(sizex, d.depth8)
    modifies bitmap
    ensures count == count0 + RowBytes(sizex, d.depth8)
    ensures forall i, j :: 0 <= i < bitmap.Length0 && 0 <= j < bitmap.Length1 ==>
      bitmap[i, j] == if i == drawy then Overlay(TilePlot(clip, x, y, sizex, sizey, d, rom, j, i), old(bitmap[i, j]))
                      else old(bitmap[i, j])
  {
    var tileaddr, colour := d.addr, d.colour;
    count := count0;
    var drawx := x;
    ghost var col := 0;
    while drawx < x + sizex
      invariant 0 <= col <= RowBytes(sizex, d.depth8)
      invariant drawx == x + (if d.depth8 then col else 2 * col)
      invariant count == count0 + col
      invariant forall i, j :: 0 <= i < bitmap.Length0 && 0 <= j < bitmap.Length1 ==>
        bitmap[i, j] == if i == drawy && j < drawx
                        then Overlay(TilePlot(clip, x, y, sizex, sizey, d, rom, j, i), old(bitmap[i, j]))
                        else old(bitmap[i, j])
    {
      FootprintIndex(d, x, y, sizex, sizey, drawx, drawy);
      assert ByteIndex(d, x, y, sizex, drawx, drawy) == tileaddr * 32 + count;
      var b := rom[tileaddr * 32 + count];
      if !d.depth8 {
        PlotIfVisible(bitmap, clip, drawx, drawy, b / 16, 15, b / 16);
        drawx := drawx + 1;
        assert ByteIndex(d, x, y, sizex, drawx, drawy) == tileaddr * 32 + count;
        PlotIfVisible(bitmap, clip, drawx, drawy, b % 16, 15, b % 16);
        count := count + 1;
      } else {
        PlotIfVisible(bitmap, clip, drawx, drawy, b, 255, b + colour * 256);
        count := count + 1;
      }
      drawx := drawx + 1;
      col := col + 1;
    }
  }

  /** One pixel write of the loop: only strictly inside the clip, and only when dat is not the transparent value. */
  method PlotIfVisible(bitmap: array2<Pen>, clip: Rect, drawx: int, drawy: int, dat: int, transparent: int, pen: Pen)
    requires ClipInside(clip, bitmap.Length0, bitmap.Length1)
    modifies bitmap
    ensures forall i, j :: 0 <= i < bitmap.Length0 && 0 <= j < bitmap.Length1 ==>
      bitmap[i, j] == if i == drawy && j == drawx && StrictlyInside(clip, drawx, drawy) && dat != transparent
                      then pen else old(bitmap[i, j])
  {
    if drawx < clip.maxX && drawx > clip.minX && drawy < clip.maxY && drawy > clip.minY {
      if dat != transparent {
        bitmap[drawy, drawx] := pen;
      }
    }
  }

  // ---------------------------------------------------------------- what a cell plots

  /** The early exits only skip cells none of whose pixels could pass the per-pixel clip test. */
  lemma RejectionOnlySkipsInvisible(clip: Rect, x: int, y: int, sizex: nat, sizey: nat, depth8: bool, px: int, py: int)
    requires Rejected(clip, x, y, sizex, sizey)
    requires InFootprint(x, y, sizex, sizey, depth8, px, py)
    ensures !StrictlyInside(clip, px, py)
  {
  }

  /** A plotted pixel lies in the cell's footprint and strictly inside the clip. */
  lemma PlotOnlyInside(clip: Rect, x: int, y: int, sizex: nat, sizey: nat, d: TileDesc, rom: seq<Byte>, px: int, py: int)
    requires ValidTileDesc(d) && CellReadable(clip, x, y, sizex, sizey, d, rom)
    requires TilePlot(clip, x, y, sizex, sizey, d, rom, px, py).Some?
    ensures !Rejected(clip, x, y, sizex, sizey)
    ensures InFootprint(x, y, sizex, sizey, d.depth8, px, py) && StrictlyInside(clip, px, py)
  {
  }

  /**
   * At 4bpp a plotted pen is the raw nibble, never 15 and never colour-banked;
   * the pixel pair at offsets 2k and 2k+1 shares one ROM byte, high nibble first.
   */
  lemma FourBppPens(clip: Rect, x: int, y: int, sizex: nat, sizey: nat, d: TileDesc, rom: seq<Byte>, px: int, py: int)
    requires ValidTileDesc(d) && !d.depth8 && CellReadable(clip, x, y, sizex, sizey, d, rom)
    requires TilePlot(clip, x, y, sizex, sizey, d, rom, px, py).Some?
    ensures 0 <= ByteIndex(d, x, y, sizex, px, py) < |rom|
    ensures TilePlot(clip, x, y, sizex, sizey, d, rom, px, py).value < 15
    ensures var b := rom[ByteIndex(d, x, y, sizex, px, py)];
      TilePlot(clip, x, y, sizex, sizey, d, rom, px, py).value == if (px - x) % 2 == 0 then b / 16 else b % 16
  {
    FootprintIndex(d, x, y, sizex, sizey, px, py);
  }

  /** The two pixels of a 4bpp pair read the same byte. */
  lemma NibblePairSharesByte(d: TileDesc, x: int, y: int, sizex: nat, k: int, py: int)
    requires !d.depth8 && 0 <= k
    ensures ByteIndex(d, x, y, sizex, x + 2 * k, py) == ByteIndex(d, x, y, sizex, x + 2 * k + 1, py)
  {
  }

  /** At 8bpp a plotted pen is byte + colour * 256 with byte != 255: its high byte is the colour. */
  lemma EightBppPens(clip: Rect, x: int, y: int, sizex: nat, sizey: nat, d: TileDesc, rom: seq<Byte>, px: int, py: int)
    requires ValidTileDesc(d) && d.depth8 && CellReadable(clip, x, y, sizex, sizey, d, rom)
    requires TilePlot(clip, x, y, sizex, sizey, d, rom, px, py).Some?
    ensures 0 <= ByteIndex(d, x, y, sizex, px, py) < |rom|
    ensures var b := rom[ByteIndex(d, x, y, sizex, px, py)];
      b != 255 && TilePlot(clip, x, y, sizex, sizey, d, rom, px, py).value == b + d.colour * 256
    ensures TilePlot(clip, x, y, sizex, sizey, d, rom, px, py).value / 256 == d.colour
  {
    FootprintIndex(d, x, y, sizex, sizey, px, py);
  }

  /**
   * At 8bpp the counter rises once per pixel: distinct footprint pixels read
   * distinct bytes, all within the tile's sizex * sizey bytes.
   */
  lemma {:induction false} EightBppBytesDistinct(d: TileDesc, x: int, y: int, sizex: nat, sizey: nat,
                                                 px1: int, py1: int, px2: int, py2: int)
    requires ValidTileDesc(d) && d.depth8
    requires InFootprint(x, y, sizex, sizey, true, px1, py1) && InFootprint(x, y, sizex, sizey, true, px2, py2)
    requires (px1, py1) != (px2, py2)
    ensures ByteIndex(d, x, y, sizex, px1, py1) != ByteIndex(d, x, y, sizex, px2, py2)
    ensures ByteIndex(d, x, y, sizex, px1, py1) < d.addr * 32 + sizex * sizey
  {
    FootprintIndex(d, x, y, sizex, sizey, px1, py1);
    assert sizey * sizex == sizex * sizey;
    if py1 < py2 {
      RowMajorBound(py1 - y, py2 - y, sizex, px1 - x);
      MulMono(0, py2 - py1, sizex);
      assert (py2 - y) * sizex == (py1 - y) * sizex + (py2 - py1) * sizex;
    } else if py2 < py1 {
      RowMajorBound(py2 - y, py1 - y, sizex, px2 - x);
      assert (py1 - y) * sizex == (py2 - y) * sizex + (py1 - py2) * sizex;
    }
  }

  // ---------------------------------------------------------------- tilemap

  /** Cell size and scroll of one tilemap, from its registers 0 and 2. */
  datatype LayerGeom = LayerGeom(size: nat, scrollX: int, scrollY: int)

  function Geometry(reg0: Word, reg2: Word): (g: LayerGeom)
    ensures g.size == 8 || g.size == 16
    ensures 0 <= g.scrollX < 0x1000 && 0 <= g.scrollY < 0x1000
  {
    LayerGeom(CellSize(reg0), ScrollX(reg2), ScrollY(reg2))
  }

  predicate ValidGeom(g: LayerGeom) {
    (g.size == 8 || g.size == 16) && 0 <= g.scrollX && 0 <= g.scrollY
  }

  /** Cell k of the 64x64 grid, row-major, sits at column k % 64 and row k / 64, shifted by the scroll. */
  function CellX(g: LayerGeom, k: int): int {
    (k % 64) * g.size - g.scrollX
  }

  function CellY(g: LayerGeom, k: int): int {
    (k / 64) * g.size - g.scrollY
  }

  /** Every cell of the grid reads only ROM bytes that exist. */
  predicate LayerReadable(clip: Rect, cells: seq<Word>, g: LayerGeom, rom: seq<Byte>) {
    |cells| == 0x1000 &&
    forall k :: 0 <= k < 0x1000 ==>
      CellReadable(clip, CellX(g, k), CellY(g, k), g.size, g.size, DecodeTile(cells[k]), rom)
  }

  function CellPlot(clip: Rect, cells: seq<Word>, g: LayerGeom, rom: seq<Byte>, k: int, px: int, py: int): Option<Pen>
    requires LayerReadable(clip, cells, g, rom) && 0 <= k < 0x1000
  {
    TilePlot(clip, CellX(g, k), CellY(g, k), g.size, g.size, DecodeTile(cells[k]), rom, px, py)
  }

  /** The pixel after cells lo .. n-1 have been drawn over under, in the loop's order. */
  function Layer(lo: nat, n: nat, clip: Rect, cells: seq<Word>, g: LayerGeom, rom: seq<Byte>, px: int, py: int, under: Pen): Pen
    requires LayerReadable(clip, cells, g, rom) && n <= 0x1000
  {
    if n <= lo then under
    else Overlay(CellPlot(clip, cells, g, rom, n - 1, px, py), Layer(lo, n - 1, clip, cells, g, rom, px, py, under))
  }

  /** Drawing cells lo .. n-1 over the result of cells 0 .. lo-1 is drawing cells 0 .. n-1. */
  lemma {:induction false} LayerSplit(lo: nat, n: nat, clip: Rect, cells: seq<Word>, g: LayerGeom, rom: seq<Byte>,
                                      px: int, py: int, under: Pen)
    requires LayerReadable(clip, cells, g, rom) && lo <= n <= 0x1000
    ensures Layer(lo, n, clip, cells, g, rom, px, py, Layer(0, lo, clip, cells, g, rom, px, py, under))
         == Layer(0, n, clip, cells, g, rom, px, py, under)
  {
    if n > lo {
      LayerSplit(lo, n - 1, clip, cells, g, rom, px, py, under);
    }
  }

  /**
   * ttmjprd_draw_tilemap: the 64x64 cells of tileram, in row-major order, each
   * drawn with ttmjprd_draw_tile at its scrolled position.
   */
  method DrawTilemap(bitmap: array2<Pen>, clip: Rect, tileram: array<Word>, tileregs: array<Word>, rom: seq<Byte>)
    requires ClipInside(clip, bitmap.Length0, bitmap.Length1)
    requires tileram.Length >= 0x1000 && tileregs.Length >= 3
    requires LayerReadable(clip, tileram[..0x1000], Geometry(tileregs[0], tileregs[2]), rom)
    modifies bitmap
    ensures forall py, px :: 0 <= py < bitmap.Length0 && 0 <= px < bitmap.Length1 ==>
      bitmap[py, px] == Layer(0, 0x1000, clip, tileram[..0x1000], Geometry(tileregs[0], tileregs[2]), rom, px, py, old(bitmap[py, px]))
  {
    ghost var cells := tileram[..0x1000];
    ghost var g := Geometry(tileregs[0], tileregs[2]);
    var tileSize := CellSize(tileregs[0]);
    var scrolly := ScrollY(tileregs[2]);
    var scrollx := ScrollX(tileregs[2]);

    var count := 0;
    var y := 0;
    while y < 64
      invariant 0 <= y <= 64 && count == y * 64
      invariant forall i, j :: 0 <= i < bitmap.Length0 && 0 <= j < bitmap.Length1 ==>
        bitmap[i, j] == Layer(0, count, clip, cells, g, rom, j, i, old(bitmap[i, j]))
    {
      ghost var count0 := count;
      count := DrawTilemapRow(bitmap, clip, tileram, g, rom, y, count, tileSize, scrollx, scrolly);
      forall i, j | 0 <= i < bitmap.Length0 && 0 <= j < bitmap.Length1
        ensures bitmap[i, j] == Layer(0, count, clip, cells, g, rom, j, i, old(bitmap[i, j]))
      {
        LayerSplit(count0, count, clip, cells, g, rom, j, i, old(bitmap[i, j]));
      }
      y := y + 1;
    }
  }

  /** The inner loop of ttmjprd_draw_tilemap: the 64 cells of grid row y. */
  method DrawTilemapRow(bitmap: array2<Pen>, clip: Rect, tileram: array<Word>, ghost g: LayerGeom, rom: seq<Byte>,
                        y: int, count0: int, tileSize: nat, scrollx: int, scrolly: int) returns (count: int)
    requires ClipInside(clip, bitmap.Length0, bitmap.Length1)
    requires tileram.Length >= 0x1000 && LayerReadable(clip, tileram[..0x1000], g, rom)
    requires g == LayerGeom(tileSize, scrollx, scrolly)
    requires 0 <= y < 64 && count0 == y * 64
    modifies bitmap
    ensures count == count0 + 64
    ensures forall i, j :: 0 <= i < bitmap.Length0 && 0 <= j < bitmap.Length1 ==>
      bitmap[i, j] == Layer(count0, count, clip, tileram[..0x1000], g, rom, j, i, old(bitmap[i, j]))
  {
    ghost var cells := tileram[..0x1000];
    count := count0;
    var x := 0;
    while x < 64
      invariant 0 <= x <= 64 && count == count0 + x
      invariant forall i, j :: 0 <= i < bitmap.Length0 && 0 <= j < bitmap.Length1 ==>
        bitmap[i, j] == Layer(count0, count, clip, cells, g, rom, j, i, old(bitmap[i, j]))
    {
      var tiledata := tileram[count];
      assert count % 64 == x && count / 64 == y;
      assert CellX(g, count) == x * tileSize - scrollx && CellY(g, count) == y * tileSize - scrolly;
      assert tiledata == cells[count];
      DrawTile(bitmap, clip, x * tileSize - scrollx, y * tileSize - scrolly, tileSize, tileSize, tiledata, rom);
      count := count + 1;
      x := x + 1;
    }
  }

  // ---------------------------------------------------------------- which cell owns a pixel

  /** With no cell of lo .. n-1 plotting, the pixel keeps its underlying value. */
  lemma {:induction false} LayerUnder(lo: nat, n: nat, clip: Rect, cells: seq<Word>, g: LayerGeom, rom: seq<Byte>,
                                      px: int, py: int, under: Pen)
    requires LayerReadable(clip, cells, g, rom) && n <= 0x1000
    requires forall k :: lo <= k < n ==> CellPlot(clip, cells, g, rom, k, px, py).None?
    ensures Layer(lo, n, clip, cells, g, rom, px, py, under) == under
  {
    if n > lo {
      LayerUnder(lo, n - 1, clip, cells, g, rom, px, py, under);
    }
  }

  /** When only cell k may plot the pixel, the layer shows that cell over what was underneath. */
  lemma {:induction false} LayerSingle(n: nat, k: nat, clip: Rect, cells: seq<Word>, g: LayerGeom, rom: seq<Byte>,
                                       px: int, py: int, under: Pen)
    requires LayerReadable(clip, cells, g, rom) && k < n <= 0x1000
    requires forall j :: 0 <= j < n && j != k ==> CellPlot(clip, cells, g, rom, j, px, py).None?
    ensures Layer(0, n, clip, cells, g, rom, px, py, under) == Overlay(CellPlot(clip, cells, g, rom, k, px, py), under)
  {
    if n - 1 == k {
      LayerUnder(0, k, clip, cells, g, rom, px, py, under);
    } else {
      LayerSingle(n - 1, k, clip, cells, g, rom, px, py, under);
    }
  }

  lemma DivUnique(a: int, t: int, size: int)
    requires 0 < size && 0 <= a && a * size <= t < a * size + size
    ensures a == t / size
  {
    var q := t / size;
    assert q * size <= t < q * size + size;
    if a < q {
      MulMono(a + 1, q, size);
    } else if q < a {
      MulMono(q + 1, a, size);
    }
  }

  /** The grid cell whose footprint holds the unscrolled point (px + scrollX, py + scrollY), if it is on the grid. */
  function OwnerCell(g: LayerGeom, px: int, py: int): (k: Option<nat>)
    requires ValidGeom(g) && 0 <= px && 0 <= py
    ensures k.Some? ==> k.value < 0x1000
  {
    var col := (px + g.scrollX) / g.size;
    var row := (py + g.scrollY) / g.size;
    if col < 64 && row < 64 then Some(row * 64 + col) else None
  }

  /** A cell whose footprint holds an on-screen pixel is that pixel's owner: cells of one tilemap never overlap. */
  lemma CellOwnsFootprint(g: LayerGeom, k: int, depth8: bool, px: int, py: int)
    requires ValidGeom(g) && 0 <= px && 0 <= py && 0 <= k < 0x1000
    requires InFootprint(CellX(g, k), CellY(g, k), g.size, g.size, depth8, px, py)
    ensures OwnerCell(g, px, py) == Some(k)
  {
    assert Span(g.size, depth8) == g.size;
    var col, row := k % 64, k / 64;
    assert col * g.size <= px + g.scrollX < col * g.size + g.size;
    assert row * g.size <= py + g.scrollY < row * g.size + g.size;
    DivUnique(col, px + g.scrollX, g.size);
    DivUnique(row, py + g.scrollY, g.size);
    assert row < 64 && row * 64 + col == k;
  }

  /**
   * A whole tilemap pass leaves each pixel as its owner cell draws it over
   * the old value; pixels whose cell would lie past the 64x64 grid (the
   * layer does not wrap around) keep their old value.
   */
  lemma LayerIsOwner(clip: Rect, cells: seq<Word>, g: LayerGeom, rom: seq<Byte>, px: int, py: int, under: Pen)
    requires LayerReadable(clip, cells, g, rom) && ValidGeom(g) && 0 <= px && 0 <= py
    ensures Layer(0, 0x1000, clip, cells, g, rom, px, py, under) ==
      match OwnerCell(g, px, py)
      case Some(k) => Overlay(CellPlot(clip, cells, g, rom, k, px, py), under)
      case None => under
  {
    forall j | 0 <= j < 0x1000 && OwnerCell(g, px, py) != Some(j)
      ensures CellPlot(clip, cells, g, rom, j, px, py).None?
    {
      var d := DecodeTile(cells[j]);
      if CellPlot(clip, cells, g, rom, j, px, py).Some? {
        PlotOnlyInside(clip, CellX(g, j), CellY(g, j), g.size, g.size, d, rom, px, py);
        CellOwnsFootprint(g, j, d.depth8, px, py);
      }
    }
    match OwnerCell(g, px, py)
    case Some(k) =>
      LayerSingle(0x1000, k, clip, cells, g, rom, px, py, under);
    case None =>
      LayerUnder(0, 0x1000, clip, cells, g, rom, px, py, under);
  }
}
