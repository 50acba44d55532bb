/**
 * Bit-field decoders of the tmmjprd video chip and bus ports
 * (src/mame/drivers/tmmjprd.c): tile descriptors, sprite entries, tilemap
 * registers, palette words, brightness ports, the input mux and the interrupt
 * level. Each decoder is paired with an encoder and a round-trip lemma.
 */
module TmmjprdDecode {
  import opened Words
  import opened Wrappers

  // ---------------------------------------------------------------- tiles

  /**
   * A tilemap cell descriptor. addr is a ROM address in units of 32 bytes, not
   * a tile number; depth8 selects 8bpp (one byte per pixel) over 4bpp.
   * Bits 29-31 (flip and blank) are not interpreted by the renderer.
   */
  datatype TileDesc = TileDesc(addr: int, colour: int, depth8: bool)

  predicate ValidTileDesc(d: TileDesc) {
    0 <= d.addr < 0x10_0000 && 0 <= d.colour < 0x100
  }

  /** ttmjprd_draw_tile: tileaddr = bits 0-19, colour = bits 20-27, depth = bit 28. */
  function DecodeTile(w: Word): (d: TileDesc)
    ensures ValidTileDesc(d)
    ensures d.depth8 <==> w & 0x1000_0000 != 0
  {
    TileDesc(TileAddr(w), TileColour(w), (w & 0x1000_0000) >> 28 != 0)
  }

  function TileAddr(w: Word): (a: int)
    ensures 0 <= a < 0x10_0000
  {
    ((w & 0x000f_ffff) as bv20) as int
  }

  function TileColour(w: Word): (c: int)
    ensures 0 <= c < 0x100
  {
    (((w & 0x0ff0_0000) >> 20) as bv8) as int
  }

  /** The descriptor word a game stores for a ROM address, colour bank and depth, flip and blank bits clear. */
  function EncodeTile(addr: Word, colour: Word, depth8: bool): (w: Word)
    requires addr < 0x10_0000 && colour < 0x100
    ensures w & 0xe000_0000 == 0
  {
    addr | (colour << 20) | (if depth8 then 0x1000_0000 else 0)
  }

  lemma TileRoundTrip(addr: Word, colour: Word, depth8: bool)
    requires addr < 0x10_0000 && colour < 0x100
    ensures DecodeTile(EncodeTile(addr, colour, depth8)) == TileDesc(addr as int, colour as int, depth8)
  {
    TileFields(addr, colour, depth8);
  }

  lemma TileFields(addr: Word, colour: Word, depth8: bool)
    requires addr < 0x10_0000 && colour < 0x100
    ensures var w := EncodeTile(addr, colour, depth8);
      w & 0x000f_ffff == addr && (w & 0x0ff0_0000) >> 20 == colour && ((w & 0x1000_0000) >> 28 != 0 <==> depth8)
  {
  }

  /** The top three bits (flip x/y and "blank") never change the decoded descriptor. */
  lemma TileIgnoresFlagBits(w: Word)
    ensures DecodeTile(w) == DecodeTile(w & 0x1fff_ffff)
  {
  }

  // ---------------------------------------------------------------- tilemap registers

  /** Cell size of a whole tilemap: 16x16 when bit 22 of register 0 is set, else 8x8. */
  function CellSize(reg0: Word): (size: int)
    ensures size == 8 || size == 16
    ensures size == 16 <==> reg0 & 0x0040_0000 != 0
  {
    if reg0 & 0x0040_0000 != 0 then 16 else 8
  }

  /** scrollx = bits 4-15 of register 2. */
  function ScrollX(reg2: Word): (sx: int)
    ensures 0 <= sx < 0x1000
  {
    (((reg2 & 0x0000_fff0) >> 4) as bv12) as int
  }

  /** scrolly = bits 20-31 of register 2. */
  function ScrollY(reg2: Word): (sy: int)
    ensures 0 <= sy < 0x1000
  {
    (((reg2 & 0xfff0_0000) >> 20) as bv12) as int
  }

  /** Register 2 as a game writes it for the given scroll offsets. */
  function ScrollWord(sx: Word, sy: Word): Word
    requires sx < 0x1000 && sy < 0x1000
  {
    (sy << 20) | (sx << 4)
  }

  lemma ScrollRoundTrip(sx: Word, sy: Word)
    requires sx < 0x1000 && sy < 0x1000
    ensures ScrollX(ScrollWord(sx, sy)) == sx as int && ScrollY(ScrollWord(sx, sy)) == sy as int
  {
    ScrollFields(sx, sy);
  }

  lemma ScrollFields(sx: Word, sy: Word)
    requires sx < 0x1000 && sy < 0x1000
    ensures (ScrollWord(sx, sy) & 0x0000_fff0) >> 4 == sx && (ScrollWord(sx, sy) & 0xfff0_0000) >> 20 == sy
  {
  }

  // ---------------------------------------------------------------- sprites

  /** One drawgfx_transpen request issued by draw_sprites (its pixels are not modelled). */
  datatype SpriteDraw = SpriteDraw(code: int, colour: int, flipX: bool, flipY: bool,
                                   sx: int, sy: int, transPen: int)

  /** xpos: the low 12 bits of word 0, sign-extended through bit 11. */
  function SpriteX(w0: Word): (x: int)
    ensures -0x800 <= x < 0x800
    ensures (x + 0x1000) % 0x1000 == SpriteXField(w0)
  {
    var raw := SpriteXField(w0);
    if raw >= 0x800 then raw - 0x1000 else raw
  }

  /** The low 12 bits of word 0, unsigned. */
  function SpriteXField(w0: Word): (raw: int)
    ensures 0 <= raw < 0x1000
  {
    ((w0 & 0x0000_0fff) as bv12) as int
  }

  /** SpriteX's sign test on the 12-bit field is the source's test of bit 11. */
  lemma SpriteXSignBit(w0: Word)
    ensures SpriteX(w0) < 0 <==> w0 & 0x800 != 0
  {
    var r := (w0 & 0x0000_0fff) as bv12;
    assert SpriteXField(w0) == r as int;
    assert r & 0x800 != 0 <==> w0 & 0x800 != 0;
    assert r as int >= 0x800 <==> r >= 0x800;
    assert r >= 0x800 <==> r & 0x800 != 0;
  }

  /** ypos: bits 16-27 of word 0, unsigned. */
  function SpriteY(w0: Word): (y: int)
    ensures 0 <= y < 0x1000
  {
    (((w0 & 0x0fff_0000) >> 16) as bv12) as int
  }

  /** tileno: the low 18 bits of word 1, halved. */
  function SpriteTile(w1: Word): int
  {
    (((w1 & 0x0003_ffff) >> 1) as bv17) as int
  }

  /** A sprite names one of 0x20000 16x16 tiles: bits 18-31 of word 1 never reach it. */
  lemma SpriteTileRange(w1: Word)
    ensures 0 <= SpriteTile(w1) < 0x2_0000
    ensures SpriteTile(w1) == SpriteTile(w1 & 0x0003_ffff)
  {
    assert (w1 & 0x0003_ffff) >> 1 < 0x2_0000;
    assert (w1 & 0x0003_ffff) & 0x0003_ffff == w1 & 0x0003_ffff;
  }

  /**
   * The draw request for one sprite pair: 16x16 8bpp, pen 255 transparent,
   * x flip inverted from bit 15, origin biased by -8 and shifted left by xoffs.
   * colr is bits 20-27 of word 1, the same field as a tile descriptor's colour.
   */
  function DecodeSprite(w0: Word, w1: Word, xoffs: int): (s: SpriteDraw)
    ensures s.transPen == 255
    ensures s.flipX <==> w0 & 0x8000 == 0
    ensures s.flipY <==> w0 & 0x4000 != 0
    ensures -0x800 - xoffs - 8 <= s.sx < 0x800 - xoffs - 8
    ensures -8 <= s.sy < 0x1000 - 8
  {
    SpriteDraw(SpriteTile(w1), TileColour(w1), !(w0 & 0x8000 != 0), w0 & 0x4000 != 0,
               SpriteX(w0) - xoffs - 8, SpriteY(w0) - 8, 255)
  }

  /**
   * The draw request depends only on the fields draw_sprites reads: bits
   * 12-13 and 28-31 of word 0, and bits 0, 18-19 and 28-31 of word 1, never
   * reach it.
   */
  lemma SpriteIgnoresUnusedBits(w0: Word, w1: Word, xoffs: int)
    ensures DecodeSprite(w0, w1, xoffs) == DecodeSprite(w0 & 0x0fff_cfff, w1 & 0x0ff3_fffe, xoffs)
  {
  }

  /** Word 0 of a sprite entry: the raw 12-bit x, y, and the two stored flip bits. */
  function SpriteWord0(xraw: Word, y: Word, storedFlipX: bool, flipY: bool): Word
    requires xraw < 0x1000 && y < 0x1000
  {
    xraw | (y << 16) | (if storedFlipX then 0x8000 else 0) | (if flipY then 0x4000 else 0)
  }

  /** Word 1 of a sprite entry: the tile number doubled in bits 0-17, colour in bits 20-27. */
  function SpriteWord1(tile: Word, colour: Word): Word
    requires tile < 0x2_0000 && colour < 0x100
  {
    (tile << 1) | (colour << 20)
  }

  /** Decoding an encoded entry recovers every field, with x flip inverted and the -8 bias. */
  lemma SpriteRoundTrip(xraw: Word, y: Word, storedFlipX: bool, flipY: bool, tile: Word, colour: Word, xoffs: int)
    requires xraw < 0x1000 && y < 0x1000
    requires tile < 0x2_0000 && colour < 0x100
    ensures DecodeSprite(SpriteWord0(xraw, y, storedFlipX, flipY), SpriteWord1(tile, colour), xoffs)
         == SpriteDraw(tile as int, colour as int, !storedFlipX, flipY,
                       SpriteX(xraw) - xoffs - 8, y as int - 8, 255)
  {
    SpriteFields(xraw, y, storedFlipX, flipY, tile, colour);
  }

  lemma SpriteFields(xraw: Word, y: Word, storedFlipX: bool, flipY: bool, tile: Word, colour: Word)
    requires xraw < 0x1000 && y < 0x1000
    requires tile < 0x2_0000 && colour < 0x100
    ensures var w0 := SpriteWord0(xraw, y, storedFlipX, flipY);
      && w0 & 0x0fff == xraw && w0 & 0x800 == xraw & 0x800
      && (w0 & 0x0fff_0000) >> 16 == y
      && (w0 & 0x8000 != 0 <==> storedFlipX) && (w0 & 0x4000 != 0 <==> flipY)
    ensures var w1 := SpriteWord1(tile, colour);
      (w1 & 0x3_ffff) >> 1 == tile && (w1 & 0x0ff0_0000) >> 20 == colour
  {
  }

  /** Entries at x = 0x7ff and 0x800 land 4095 pixels apart: bit 11 is a sign bit. */
  lemma SpriteXWraps()
    ensures SpriteX(0x7ff) == 0x7ff && SpriteX(0x800) == -0x800 && SpriteX(0xfff) == -1
  {
  }

  // ---------------------------------------------------------------- palette

  datatype Rgb = Rgb(r: int, g: int, b: int)

  predicate ValidRgb(c: Rgb) {
    0 <= c.r < 0x100 && 0 <= c.g < 0x100 && 0 <= c.b < 0x100
  }

  /** tmmjprd_paletteram_dword_w: blue in bits 0-7, red in bits 8-15, green in bits 16-23. */
  function UnpackColor(w: Word): (c: Rgb)
    ensures ValidRgb(c)
  {
    Rgb((((w & 0x0000_ff00) >> 8) as bv8) as int, (((w & 0x00ff_0000) >> 16) as bv8) as int, ((w & 0x0000_00ff) as bv8) as int)
  }

  /** The palette word a game stores for red, green and blue components. */
  function PackColor(r: Word, g: Word, b: Word): (w: Word)
    requires r < 0x100 && g < 0x100 && b < 0x100
    ensures w & 0xff00_0000 == 0
  {
    b | (r << 8) | (g << 16)
  }

  lemma ColorRoundTrip(r: Word, g: Word, b: Word)
    requires r < 0x100 && g < 0x100 && b < 0x100
    ensures UnpackColor(PackColor(r, g, b)) == Rgb(r as int, g as int, b as int)
  {
    ColorFields(r, g, b);
  }

  lemma ColorFields(r: Word, g: Word, b: Word)
    requires r < 0x100 && g < 0x100 && b < 0x100
    ensures var w := PackColor(r, g, b);
      (w & 0x0000_ff00) >> 8 == r && (w & 0x00ff_0000) >> 16 == g && w & 0x0000_00ff == b
  {
  }

  /** The top byte of a palette word is ignored. */
  lemma ColorTopByteIgnored(w: Word)
    ensures UnpackColor(w) == UnpackColor(w & 0x00ff_ffff)
  {
  }

  /** The non-standard component order on a concrete word: 0x00112233 is R=0x22, G=0x11, B=0x33. */
  lemma ColorOrderExample()
    ensures UnpackColor(0x0011_2233) == Rgb(0x22, 0x11, 0x33)
  {
  }

  // ---------------------------------------------------------------- brightness ports

  /** Brightness level of a port write: bits 27-30, i.e. bits 3-6 of the top byte (contrast level/16). */
  function BrtLevel(data: Word): (level: int)
    ensures 0 <= level < 16
  {
    ((((data >> 24) & 0x78) >> 3) as bv4) as int
  }

  /** First palette entry the write dims: 0x800 when bit 2 of the top byte is set, else 0. */
  function BrtBank(data: Word): (bank: int)
    ensures bank == 0 || bank == 0x800
    ensures bank == 0x800 <==> data & 0x0400_0000 != 0
  {
    if (data >> 24) & 0x4 != 0 then 0x800 else 0
  }

  /** Bit 7 of the top byte enables the write. */
  predicate BrtEnabled(data: Word) {
    (data >> 24) & 0x80 != 0
  }

  /** The top byte a game writes for an enabled level on a bank. */
  function BrtWord(level: Word, upperBank: bool): Word
    requires level < 16
  {
    (0x80 | (level << 3) | (if upperBank then 4 else 0)) << 24
  }

  lemma BrtRoundTrip(level: Word, upperBank: bool)
    requires level < 16
    ensures BrtEnabled(BrtWord(level, upperBank))
    ensures BrtLevel(BrtWord(level, upperBank)) == level as int
    ensures BrtBank(BrtWord(level, upperBank)) == (if upperBank then 0x800 else 0)
  {
    assert ((BrtWord(level, upperBank) >> 24) & 0x78) >> 3 == level;
  }

  // ---------------------------------------------------------------- input mux and EEPROM port

  /** mux_data = ~data & 0xff: the latch holds the complement of the low data byte. */
  function MuxLatch(data: Word): (m: bv8)
    ensures (m as bv32) & data == 0
    ensures (m as bv32) | (data & 0xff) == 0xff
  {
    (!data & 0xff) as bv8
  }

  /** Which of the five player-input groups a one-hot latch value selects. */
  function MuxGroup(m: bv8): (g: Option<int>)
    ensures g.Some? ==> 0 <= g.value < 5 && m == (1 as bv8) << (g.value as bv8)
    ensures g.None? ==> m !in {0x01, 0x02, 0x04, 0x08, 0x10}
  {
    if m == 0x01 then Some(0)
    else if m == 0x02 then Some(1)
    else if m == 0x04 then Some(2)
    else if m == 0x08 then Some(3)
    else if m == 0x10 then Some(4)
    else None
  }

  /** The input ports read by tmmjprd_mux_r: SYSTEM and the five groups PLn_1 .. PLn_5 per player. */
  datatype InputPorts = InputPorts(system: bv8, pl1: seq<bv8>, pl2: seq<bv8>)

  predicate ValidPorts(p: InputPorts) {
    |p.pl1| == 5 && |p.pl2| == 5
  }

  /**
   * tmmjprd_mux_r: SYSTEM in byte 0 always; for a one-hot latch, player 1 and
   * player 2 of the selected group in bytes 1 and 2 and 0xff in byte 3;
   * otherwise bytes 1-3 all read 0xff.
   */
  function MuxRead(m: bv8, p: InputPorts): (r: Word)
    requires ValidPorts(p)
    ensures r & 0xff == p.system as bv32
    ensures r >> 24 == 0xff
    ensures MuxGroup(m).Some? ==>
              (r >> 8) & 0xff == p.pl1[MuxGroup(m).value] as bv32 && (r >> 16) & 0xff == p.pl2[MuxGroup(m).value] as bv32
    ensures MuxGroup(m).None? ==> r >> 8 == 0x00ff_ffff
  {
    var sys := p.system as bv32;
    match MuxGroup(m)
    case Some(g) => sys | ((p.pl1[g] as bv32) << 8) | ((p.pl2[g] as bv32) << 16) | 0xff00_0000
    case None => sys | 0xffff_ff00
  }

  /** Writing 0xfe to the low lane selects group 0 (PL1_1/PL2_1): the latch is active low. */
  lemma MuxSelectExample(data: Word)
    requires data & 0xff == 0xfe
    ensures MuxGroup(MuxLatch(data)) == Some(0)
  {
  }

  datatype Line = Assert | Clear

  /** The serial EEPROM lines driven by a top-lane write to the EEPROM port. */
  datatype EepromLines = EepromLines(bit: bool, cs: Line, clock: Line)

  /**
   * tmmjprd_eeprom_write, top lane: bit 24 is the data bit, bit 26 set releases
   * chip select (reset), bit 25 set raises the clock.
   */
  function EepromLinesOf(data: Word): (e: EepromLines)
    ensures e.bit <==> data & 0x0100_0000 != 0
    ensures e.cs == Assert <==> data & 0x0400_0000 == 0
    ensures e.clock == Assert <==> data & 0x0200_0000 != 0
  {
    EepromLines(data & 0x0100_0000 != 0,
                if data & 0x0400_0000 != 0 then Clear else Assert,
                if data & 0x0200_0000 != 0 then Assert else Clear)
  }

  // ---------------------------------------------------------------- interrupts

  /** tmmjprd_interrupt: level 5 on the first of the two per-frame calls, level 3 otherwise. */
  function InterruptLevel(iloop: int): (level: int)
    ensures level == 3 || level == 5
    ensures level == 5 <==> iloop == 0
  {
    if iloop == 0 then 5 else 3
  }
}
