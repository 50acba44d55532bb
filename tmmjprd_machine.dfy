/**
 * The driver state of tmmjprd (src/mame/drivers/tmmjprd.c) and the handlers
 * that change it in place: the four tilemap RAM banks behind masked bus
 * writes, the palette RAM with its colour updates, the two brightness ports
 * with their cached levels, the input-mux latch, the sprite walk and the
 * per-screen composition of VIDEO_UPDATE.
 */
module TmmjprdMachine {
  import opened Words
  import opened Wrappers
  import opened TmmjprdDecode
  import opened TmmjprdRender

  /** Words per tilemap bank (VIDEO_START allocates 0x8000, the CPU sees the first 0x1000). */
  const BankWords := 0x8000
  const BankWindow := 0x1000
  /** Sprite RAM 0x290000-0x29bfff and palette RAM 0x29c000-0x29ffff, in 32-bit words. */
  const SpriteWords := 0x3000
  const PaletteEntries := 0x1000
  /** Sprite entries are word pairs; draw_sprites starts at the last pair. */
  const SpriteCount := 0x17ff

  /** The two screens of the board. */
  datatype Screen = Left | Right

  /** VIDEO_UPDATE: which tilemap bank is drawn under the sprites, which over them, and the sprites' x offset. */
  function BackBank(s: Screen): (b: int)
    ensures 0 <= b < 4
  {
    if s == Left then 3 else 1
  }

  function FrontBank(s: Screen): (b: int)
    ensures 0 <= b < 4
  {
    if s == Left then 2 else 0
  }

  function SpriteXOffset(s: Screen): int {
    if s == Left then 320 else 0
  }

  /** The screens draw disjoint banks: left shows 3 under 2, right shows 1 under 0. */
  lemma ScreensUseDisjointBanks()
    ensures {BackBank(Left), FrontBank(Left)} !! {BackBank(Right), FrontBank(Right)}
    ensures {BackBank(Left), FrontBank(Left), BackBank(Right), FrontBank(Right)} == {0, 1, 2, 3}
  {
  }

  /** Pair index of the k-th sprite drawn: 0x2ffe, 0x2ffc, ... down to 2. */
  function SpriteSlot(k: int): int {
    SpriteWords - 2 - 2 * k
  }

  /** The walk visits every even pair index from 0x2ffe down to 2, once each, strictly descending; pair 0 is never drawn. */
  lemma SpriteWalkOrder(k: int, l: int)
    requires 0 <= k < l < SpriteCount
    ensures 2 <= SpriteSlot(l) < SpriteSlot(k) <= SpriteWords - 2
    ensures SpriteSlot(k) % 2 == 0
  {
  }

  lemma SpriteWalkCovers(slot: int)
    requires 0 < slot < SpriteWords && slot % 2 == 0
    ensures 0 <= (SpriteWords - 2 - slot) / 2 < SpriteCount && SpriteSlot((SpriteWords - 2 - slot) / 2) == slot
  {
  }

  /** The pixels bitmap_fill leaves: the pen inside the (inclusive) clip, the old value elsewhere. */
  function Filled(clip: Rect, pen: Pen, px: int, py: int, under: Pen): Pen {
    if clip.minX <= px <= clip.maxX && clip.minY <= py <= clip.maxY then pen else under
  }

  class Machine {
    /** tmmjprd_tilemap_ram[0..3] */
    const tilemapRam: seq<array<Word>>
    /** tmmjprd_tilemap_regs[0..3]: six words each at 0x200100 + 0x20 * bank */
    const tilemapRegs: seq<array<Word>>
    const spriteRam: array<Word>
    const paletteRam: array<Word>
    /** The colours handed to palette_set_color. */
    const colors: array<Rgb>
    /** The contrast levels handed to palette_set_pen_contrast, as level (brt = level / 16). */
    const contrast: array<int>
    /** old_brt1 and old_brt2, as levels. */
    var oldBrt1: int
    var oldBrt2: int
    var muxData: bv8

    /** The arrays have the sizes of the address map and are pairwise distinct. */
    ghost predicate Valid() {
      && |tilemapRam| == 4 && |tilemapRegs| == 4
      && (forall b :: 0 <= b < 4 ==> tilemapRam[b].Length == BankWords && tilemapRegs[b].Length == 6)
      && (forall b, c :: 0 <= b < c < 4 ==> tilemapRam[b] != tilemapRam[c] && tilemapRegs[b] != tilemapRegs[c])
      && (forall b, c :: 0 <= b < 4 && 0 <= c < 4 ==> tilemapRam[b] != tilemapRegs[c])
      && (forall b :: 0 <= b < 4 ==> tilemapRam[b] != spriteRam && tilemapRam[b] != paletteRam)
      && (forall b :: 0 <= b < 4 ==> tilemapRegs[b] != spriteRam && tilemapRegs[b] != paletteRam)
      && spriteRam != paletteRam && colors as object != paletteRam
      && spriteRam.Length == SpriteWords && paletteRam.Length == PaletteEntries
      && colors.Length == PaletteEntries && contrast.Length == PaletteEntries
    }

    /** VIDEO_START clears the four banks; the brightness caches start at 0. */
    constructor ()
      ensures Valid()
      ensures forall b, i :: 0 <= b < 4 && 0 <= i < BankWords ==> tilemapRam[b][i] == 0
      ensures oldBrt1 == 0 && oldBrt2 == 0 && muxData == 0
    {
      var banks := ClearedBanks(BankWords);
      var regs := ClearedBanks(6);
      tilemapRam, tilemapRegs := banks, regs;
      var sprites := ClearedWords(SpriteWords);
      var palette := ClearedWords(PaletteEntries);
      spriteRam, paletteRam := sprites, palette;
      colors := new Rgb[PaletteEntries](_ => Rgb(0, 0, 0));
      contrast := new int[PaletteEntries](_ => 0);
      oldBrt1, oldBrt2 := 0, 0;
      muxData := 0;
    }

    // ------------------------------------------------------------ bus handlers

    /** tmmjprd_tilemapN_w: COMBINE_DATA into one word of one bank; nothing else changes. */
    method TilemapWrite(bank: int, offset: int, data: Word, mask: Word)
      requires Valid() && 0 <= bank < 4 && 0 <= offset < BankWindow
      modifies tilemapRam[bank]
      ensures tilemapRam[bank][offset] == Combine(old(tilemapRam[bank][offset]), data, mask)
      ensures forall i :: 0 <= i < BankWords && i != offset ==> tilemapRam[bank][i] == old(tilemapRam[bank][i])
      ensures forall b, i :: 0 <= b < 4 && b != bank && 0 <= i < BankWords ==> tilemapRam[b][i] == old(tilemapRam[b][i])
    {
      tilemapRam[bank][offset] := Combine(tilemapRam[bank][offset], data, mask);
    }

    /** tmmjprd_tilemapN_r: the stored word. */
    method TilemapRead(bank: int, offset: int) returns (w: Word)
      requires Valid() && 0 <= bank < 4 && 0 <= offset < BankWindow
      ensures w == tilemapRam[bank][offset]
    {
      w := tilemapRam[bank][offset];
    }

    /** tmmjprd_paletteram_dword_w: COMBINE_DATA, then the entry's colour becomes the unpacked word. */
    method PaletteWrite(offset: int, data: Word, mask: Word)
      requires Valid() && 0 <= offset < PaletteEntries
      modifies paletteRam, colors
      ensures paletteRam[offset] == Combine(old(paletteRam[offset]), data, mask)
      ensures colors[offset] == UnpackColor(paletteRam[offset])
      ensures forall i :: 0 <= i < PaletteEntries && i != offset ==>
        paletteRam[i] == old(paletteRam[i]) && colors[i] == old(colors[i])
    {
      var w := Combine(paletteRam[offset], data, mask);
      paletteRam[offset] := w;
      colors[offset] := UnpackColor(w);
    }

    /**
     * tmmjprd_brt_1_w (port 1) and tmmjprd_brt_2_w (port 2): an enabled write
     * whose level differs from that port's cached level caches it and sets the
     * contrast of the 0x800 entries from the selected bank; any other write
     * changes nothing. Each port has its own cache, whichever bank it names.
     */
    method BrightnessWrite(port: int, data: Word)
      requires Valid() && (port == 1 || port == 2)
      modifies this, contrast
      ensures var level, bank := BrtLevel(data), BrtBank(data);
        var cached := if port == 1 then old(oldBrt1) else old(oldBrt2);
        if BrtEnabled(data) && cached != level then
          && (if port == 1 then oldBrt1 == level && oldBrt2 == old(oldBrt2)
              else oldBrt2 == level && oldBrt1 == old(oldBrt1))
          && (forall i :: 0 <= i < PaletteEntries ==>
                contrast[i] == if bank <= i < bank + 0x800 then level else old(contrast[i]))
        else
          && oldBrt1 == old(oldBrt1) && oldBrt2 == old(oldBrt2)
          && (forall i :: 0 <= i < PaletteEntries ==> contrast[i] == old(contrast[i]))
      ensures muxData == old(muxData)
    {
      var level := BrtLevel(data);
      var bank := BrtBank(data);
      var cached := if port == 1 then oldBrt1 else oldBrt2;
      if BrtEnabled(data) && cached != level {
        if port == 1 {
          oldBrt1 := level;
        } else {
          oldBrt2 := level;
        }
        var i := bank;
        while i < 0x800 + bank
          invariant bank <= i <= 0x800 + bank
          invariant oldBrt1 == (if port == 1 then level else old(oldBrt1))
          invariant oldBrt2 == (if port == 2 then level else old(oldBrt2))
          invariant muxData == old(muxData)
          invariant forall j :: 0 <= j < PaletteEntries ==>
            contrast[j] == if bank <= j < i then level else old(contrast[j])
        {
          contrast[i] := level;
          i := i + 1;
        }
      }
    }

    /**
     * tmmjprd_eeprom_write: a write to the low lane alone latches the
     * complemented byte into the mux; a write to the top lane alone drives the
     * EEPROM lines, returned here; any other mask (the watchdog write) does
     * neither.
     */
    method EepromWrite(data: Word, mask: Word) returns (lines: Option<EepromLines>)
      requires Valid()
      modifies this
      ensures muxData == if mask == 0x0000_00ff then MuxLatch(data) else old(muxData)
      ensures lines == if mask == 0xff00_0000 then Some(EepromLinesOf(data)) else None
      ensures oldBrt1 == old(oldBrt1) && oldBrt2 == old(oldBrt2)
    {
      if mask == 0x0000_00ff {
        muxData := MuxLatch(data);
      }
      lines := None;
      if mask == 0xff00_0000 {
        lines := Some(EepromLinesOf(data));
      }
    }

    /** tmmjprd_mux_r on the latched mux value (MuxRead states what it returns). */
    method ReadMux(ports: InputPorts) returns (r: Word)
      requires ValidPorts(ports)
      ensures r == MuxRead(muxData, ports)
    {
      r := MuxRead(muxData, ports);
    }

    // ------------------------------------------------------------ video

    /**
     * draw_sprites: walks the sprite RAM backwards in pairs from 0x2ffe while
     * the cursor is above the start of sprite RAM, issuing one draw request per pair; the
     * k-th request is the pair at SpriteSlot(k).
     */
    method DrawSprites(xoffs: int) returns (reqs: seq<SpriteDraw>)
      requires Valid()
      ensures |reqs| == SpriteCount
      ensures forall k :: 0 <= k < SpriteCount ==>
        reqs[k] == DecodeSprite(spriteRam[SpriteSlot(k)], spriteRam[SpriteSlot(k) + 1], xoffs)
    {
      var source := SpriteWords - 2;
      reqs := [];
      while source > 0
        invariant 0 <= source <= SpriteWords - 2 && source % 2 == 0
        invariant |reqs| == (SpriteWords - 2 - source) / 2
        invariant forall k :: 0 <= k < |reqs| ==>
          reqs[k] == DecodeSprite(spriteRam[SpriteSlot(k)], spriteRam[SpriteSlot(k) + 1], xoffs)
      {
        reqs := reqs + [DecodeSprite(spriteRam[source], spriteRam[source + 1], xoffs)];
        source := source - 2;
      }
    }

    /** The tilemap bank b as the renderer reads it, and its geometry. */
    ghost function Cells(b: int): seq<Word>
      requires Valid() && 0 <= b < 4
      reads tilemapRam[b]
    {
      tilemapRam[b][..BankWindow]
    }

    ghost function Geom(b: int): LayerGeom
      requires Valid() && 0 <= b < 4
      reads tilemapRegs[b]
    {
      Geometry(tilemapRegs[b][0], tilemapRegs[b][2])
    }

    /**
     * VIDEO_UPDATE for one screen: fill the clip with the black pen, draw the
     * back tilemap, draw the sprites, then draw the front tilemap. The sprites
     * are returned as requests; the pixels drawgfx leaves for them are the
     * parameter blit (the pen at (px, py) once the requests are drawn over pen
     * p), applied to the bitmap between the two tilemap passes.
     */
    method VideoUpdate(screen: Screen, bitmap: array2<Pen>, clip: Rect, rom: seq<Byte>, blackPen: Pen,
                       blit: (seq<SpriteDraw>, int, int, Pen) -> Pen)
      returns (sprites: seq<SpriteDraw>)
      requires Valid() && ClipInside(clip, bitmap.Length0, bitmap.Length1)
      requires LayerReadable(clip, Cells(BackBank(screen)), Geom(BackBank(screen)), rom)
      requires LayerReadable(clip, Cells(FrontBank(screen)), Geom(FrontBank(screen)), rom)
      modifies bitmap
      ensures forall py, px :: 0 <= py < bitmap.Length0 && 0 <= px < bitmap.Length1 ==>
        bitmap[py, px] ==
          Layer(0, 0x1000, clip, Cells(FrontBank(screen)), Geom(FrontBank(screen)), rom, px, py,
            blit(sprites, px, py,
              Layer(0, 0x1000, clip, Cells(BackBank(screen)), Geom(BackBank(screen)), rom, px, py,
                Filled(clip, blackPen, px, py, old(bitmap[py, px])))))
      ensures |sprites| == SpriteCount
      ensures forall k :: 0 <= k < SpriteCount ==>
        sprites[k] == DecodeSprite(spriteRam[SpriteSlot(k)], spriteRam[SpriteSlot(k) + 1], SpriteXOffset(screen))
    {
      FillRect(bitmap, clip, blackPen);
      var back, front := BackBank(screen), FrontBank(screen);
      DrawTilemap(bitmap, clip, tilemapRam[back], tilemapRegs[back], rom);
      sprites := DrawSprites(SpriteXOffset(screen));
      BlitSprites(bitmap, sprites, blit);
      DrawTilemap(bitmap, clip, tilemapRam[front], tilemapRegs[front], rom);
    }
  }

  /** auto_alloc_array_clear: a fresh zeroed word array. */
  method ClearedWords(n: nat) returns (a: array<Word>)
    ensures fresh(a) && a.Length == n && forall i :: 0 <= i < n ==> a[i] == 0
  {
    a := new Word[n](_ => 0);
  }

  /** Four fresh, distinct zeroed word arrays, one per tilemap bank. */
  method ClearedBanks(n: nat) returns (s: seq<array<Word>>)
    ensures |s| == 4
    ensures forall b :: 0 <= b < 4 ==> fresh(s[b]) && s[b].Length == n
    ensures forall b, i :: 0 <= b < 4 && 0 <= i < n ==> s[b][i] == 0
    ensures forall b, c :: 0 <= b < c < 4 ==> s[b] != s[c]
  {
    var r0 := ClearedWords(n);
    var r1 := ClearedWords(n);
    var r2 := ClearedWords(n);
    var r3 := ClearedWords(n);
    s := [r0, r1, r2, r3];
  }

  /** Draws the sprite requests over the bitmap, pixel by pixel, as blit says. */
  method BlitSprites(bitmap: array2<Pen>, sprites: seq<SpriteDraw>, blit: (seq<SpriteDraw>, int, int, Pen) -> Pen)
    modifies bitmap
    ensures forall py, px :: 0 <= py < bitmap.Length0 && 0 <= px < bitmap.Length1 ==>
      bitmap[py, px] == blit(sprites, px, py, old(bitmap[py, px]))
  {
    var y := 0;
    while y < bitmap.Length0
      invariant 0 <= y <= bitmap.Length0
      invariant forall i, j :: 0 <= i < bitmap.Length0 && 0 <= j < bitmap.Length1 ==>
        bitmap[i, j] == if i < y then blit(sprites, j, i, old(bitmap[i, j])) else old(bitmap[i, j])
    {
      var x := 0;
      while x < bitmap.Length1
        invariant 0 <= x <= bitmap.Length1
        invariant forall i, j :: 0 <= i < bitmap.Length0 && 0 <= j < bitmap.Length1 ==>
          bitmap[i, j] == if i < y || (i == y && j < x) then blit(sprites, j, i, old(bitmap[i, j]))
                          else old(bitmap[i, j])
      {
        bitmap[y, x] := blit(sprites, x, y, bitmap[y, x]);
        x := x + 1;
      }
      y := y + 1;
    }
  }

  /** bitmap_fill over the clip rectangle, inclusive of its edges. */
  method FillRect(bitmap: array2<Pen>, clip: Rect, pen: Pen)
    requires ClipInside(clip, bitmap.Length0, bitmap.Length1)
    modifies bitmap
    ensures forall py, px :: 0 <= py < bitmap.Length0 && 0 <= px < bitmap.Length1 ==>
      bitmap[py, px] == Filled(clip, pen, px, py, old(bitmap[py, px]))
  {
    var y := clip.minY;
    while y <= clip.maxY
      invariant clip.minY <= y && (clip.minY <= clip.maxY ==> y <= clip.maxY + 1)
      invariant forall i, j :: 0 <= i < bitmap.Length0 && 0 <= j < bitmap.Length1 ==>
        bitmap[i, j] == if i < y then Filled(clip, pen, j, i, old(bitmap[i, j])) else old(bitmap[i, j])
    {
      var x := clip.minX;
      while x <= clip.maxX
        invariant clip.minX <= x && (clip.minX <= clip.maxX ==> x <= clip.maxX + 1)
        invariant forall i, j :: 0 <= i < bitmap.Length0 && 0 <= j < bitmap.Length1 ==>
          bitmap[i, j] == if i < y || (i == y && clip.minX <= j < x) then Filled(clip, pen, j, i, old(bitmap[i, j]))
                          else old(bitmap[i, j])
      {
        bitmap[y, x] := pen;
        x := x + 1;
      }
      y := y + 1;
    }
  }
}
