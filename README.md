# tmmjprd video/bus handlers and the SDL input layer, in Dafny

This project models two pieces of an arcade/home-computer emulator:

- **The tmmjprd driver** (`src/mame/drivers/tmmjprd.c`), a two-screen mahjong board. The model covers:
  - the four tilemap RAM banks behind masked (COMBINE_DATA) bus writes and their reads;
  - the custom tile renderer `ttmjprd_draw_tile`. It plots a cell straight from graphics ROM at a byte address, at 4 or 8 bits per pixel, clipped strictly inside the clip rectangle.
  - `ttmjprd_draw_tilemap`, a 64x64 grid of such cells under a scroll offset;
  - the sprite walk of `draw_sprites`, as the list of draw requests it issues;
  - the per-screen layer order of VIDEO_UPDATE;
  - the palette write and the two brightness ports with their cached levels;
  - the EEPROM/input-mux port and the mux read;
  - the interrupt level.
- **The SDL input layer** (`src/osd/sdl/input.c`). The model covers:
  - the os_code packing macros (KEYCODE, JOYCODE and their extractors);
  - the `joystick_digital` option parser `parse_digital`, with its axis guard corrected to reject negative axes (see Findings), and `parse_analog_select`;
  - the steadykey debouncer `updatekeyboard` and `is_key_pressed`, with the key tables sized for every SDL key code (see Findings);
  - the integer cases of `get_joycode_value`, whose axis reads may run on from a row's axes into its buttons;
  - the joystick codes `win_init_input` builds, as written and with its loops capped at the table sizes (see Findings);
  - `osd_get_code_value`;
  - `add_joylist_entry`'s lookup in the translation table.

**How each part is modelled.**

- **Arrays and classes.** State the C code updates in place is a Dafny `class` with `array` fields: `TmmjprdMachine.Machine` and `SdlInput.InputState`. Their methods keep the source's loops.
- **Specification functions.** Each method is proved against a pure specification function: `TilePlot`, `Layer`, `DigitalTable`, `NextCurr`, `JoycodeValue`.
- **Lemmas.** What those functions promise is proved as lemmas beside them: round trips of every bit-field encoder/decoder, ownership of a pixel by one tilemap cell, and the debouncer settling.
- **`parse_digital`.** The option walk is specified as a list of requests (`Joys`/`Axes`). The table is specified as those requests applied in order (`ApplyAll`).
- **`joystick_digital`.** It is stored flat: joystick `n` (1-based) occupies entries `(n - 1) * 8 .. n * 8 - 1`. This is exactly the memory layout the source indexes.

## Model

| member | source | states |
|---|---|---|
| Words.Combine | src/mame/drivers/tmmjprd.c:47-67 | the bits under the mask take the new data and every other bit keeps the old word |
| Words.CombineUnique | src/mame/drivers/tmmjprd.c:47-67 | those two facts determine the written word bit for bit |
| Words.CombineExtremes | src/mame/drivers/tmmjprd.c:47-67 | a full mask replaces the word, an empty mask leaves it unchanged |
| TmmjprdDecode.DecodeTile | src/mame/drivers/tmmjprd.c:113-115 | a descriptor gives a 20-bit ROM address, an 8-bit colour, and 8bpp exactly when bit 28 is set |
| TmmjprdDecode.TileAddr | src/mame/drivers/tmmjprd.c:113 | the tile address is below 2^20 |
| TmmjprdDecode.TileColour | src/mame/drivers/tmmjprd.c:99-114 | the colour of a tile descriptor or sprite (bits 20-27) is below 256 |
| TmmjprdDecode.EncodeTile | src/mame/drivers/tmmjprd.c:113-117 | an encoded descriptor has the flip and blank bits clear |
| TmmjprdDecode.TileRoundTrip | src/mame/drivers/tmmjprd.c:113-115 | decoding an encoded descriptor recovers address, colour and depth |
| TmmjprdDecode.TileFields | src/mame/drivers/tmmjprd.c:113-115 | each field of an encoded descriptor sits at its mask and shift |
| TmmjprdDecode.TileIgnoresFlagBits | src/mame/drivers/tmmjprd.c:113-117 | bits 29-31 (flip, blank) never change the decoded descriptor |
| TmmjprdDecode.CellSize | src/mame/drivers/tmmjprd.c:202-211 | cells are 16x16 exactly when bit 22 of register 0 is set, 8x8 otherwise |
| TmmjprdDecode.ScrollX | src/mame/drivers/tmmjprd.c:214 | the x scroll is a 12-bit value |
| TmmjprdDecode.ScrollY | src/mame/drivers/tmmjprd.c:213 | the y scroll is a 12-bit value |
| TmmjprdDecode.ScrollRoundTrip | src/mame/drivers/tmmjprd.c:213-214 | a register written for scroll (sx, sy) decodes back to sx and sy |
| TmmjprdDecode.ScrollFields | src/mame/drivers/tmmjprd.c:213-214 | the two scroll fields sit at bits 4-15 and 20-31 |
| TmmjprdDecode.SpriteX | src/mame/drivers/tmmjprd.c:86-101 | sprite x lies in -0x800..0x7ff and is congruent to the low 12 bits modulo 0x1000 |
| TmmjprdDecode.SpriteXField | src/mame/drivers/tmmjprd.c:86 | the raw x field is a 12-bit value |
| TmmjprdDecode.SpriteXSignBit | src/mame/drivers/tmmjprd.c:101 | sprite x is negative exactly when bit 11 of word 0 is set |
| TmmjprdDecode.SpriteXWraps | src/mame/drivers/tmmjprd.c:86-101 | 0x7ff stays 0x7ff while 0x800 and 0xfff become -0x800 and -1 |
| TmmjprdDecode.SpriteY | src/mame/drivers/tmmjprd.c:87 | sprite y is an unsigned 12-bit value |
| TmmjprdDecode.SpriteTileRange | src/mame/drivers/tmmjprd.c:94-97 | the tile number is below 0x20000 and bits 18-31 of word 1 never reach it |
| TmmjprdDecode.DecodeSprite | src/mame/drivers/tmmjprd.c:86-104 | pen 255 is transparent, x flip is the inverse of bit 15, y flip is bit 14, and the origin is biased by -8 and by -xoffs in x |
| TmmjprdDecode.SpriteIgnoresUnusedBits | src/mame/drivers/tmmjprd.c:86-104 | bits 12-13 and 28-31 of word 0 and bits 0, 18-19 and 28-31 of word 1 never change the draw request |
| TmmjprdDecode.SpriteRoundTrip | src/mame/drivers/tmmjprd.c:86-104 | decoding an encoded sprite pair recovers tile, colour, both flips and the position |
| TmmjprdDecode.SpriteFields | src/mame/drivers/tmmjprd.c:86-99 | each sprite field of an encoded pair sits at its mask and shift |
| TmmjprdDecode.UnpackColor | src/mame/drivers/tmmjprd.c:558-560 | each unpacked component is a byte |
| TmmjprdDecode.PackColor | src/mame/drivers/tmmjprd.c:558-560 | a packed palette word has its top byte clear |
| TmmjprdDecode.ColorRoundTrip | src/mame/drivers/tmmjprd.c:558-562 | unpacking a packed word recovers red, green and blue |
| TmmjprdDecode.ColorFields | src/mame/drivers/tmmjprd.c:558-560 | blue, red and green sit in bytes 0, 1 and 2 |
| TmmjprdDecode.ColorTopByteIgnored | src/mame/drivers/tmmjprd.c:558-560 | the top byte of a palette word does not affect the colour |
| TmmjprdDecode.ColorOrderExample | src/mame/drivers/tmmjprd.c:558-560 | 0x00112233 unpacks to R=0x22, G=0x11, B=0x33 |
| TmmjprdDecode.BrtLevel | src/mame/drivers/tmmjprd.c:575-576 | the brightness level is a 4-bit value |
| TmmjprdDecode.BrtBank | src/mame/drivers/tmmjprd.c:577 | the bank is 0x800 exactly when bit 26 is set, else 0 |
| TmmjprdDecode.BrtRoundTrip | src/mame/drivers/tmmjprd.c:575-579 | an encoded enabled write decodes back to its level and bank |
| TmmjprdDecode.MuxLatch | src/mame/drivers/tmmjprd.c:432-433 | the latch is the bitwise complement of the low data byte |
| TmmjprdDecode.MuxGroup | src/mame/drivers/tmmjprd.c:454-461 | a one-hot latch value selects group k exactly when it is 1 << k; any other value selects none |
| TmmjprdDecode.MuxRead | src/mame/drivers/tmmjprd.c:448-464 | byte 0 is SYSTEM and byte 3 is 0xff; a selected group gives PL1 in byte 1 and PL2 in byte 2, otherwise bytes 1-3 are all 0xff |
| TmmjprdDecode.MuxSelectExample | src/mame/drivers/tmmjprd.c:432-456 | writing 0xfe to the low lane selects group 0 |
| TmmjprdDecode.EepromLinesOf | src/mame/drivers/tmmjprd.c:435-445 | bit 24 is the data bit, chip select is asserted when bit 26 is clear, and the clock is asserted when bit 25 is set |
| TmmjprdDecode.InterruptLevel | src/mame/drivers/tmmjprd.c:670-680 | the level is 5 on the first call of the frame and 3 otherwise |
| TmmjprdRender.FootprintIndex | src/mame/drivers/tmmjprd.c:137-184 | every pixel of the cell's footprint reads a byte within the cell's sizey rows of ROM |
| TmmjprdRender.DrawTile | src/mame/drivers/tmmjprd.c:110-187 | every bitmap pixel ends as TilePlot says: the cell's pen strictly inside the clip when not transparent, else the old value |
| TmmjprdRender.DrawTileRow | src/mame/drivers/tmmjprd.c:138-186 | one row advances the byte counter by a row's bytes and plots exactly that row |
| TmmjprdRender.PlotIfVisible | src/mame/drivers/tmmjprd.c:147-181 | a pixel is written only strictly inside the clip and only when not the transparent value |
| TmmjprdRender.RejectionOnlySkipsInvisible | src/mame/drivers/tmmjprd.c:121-135 | the four early returns skip only cells none of whose pixels would pass the clip test |
| TmmjprdRender.PlotOnlyInside | src/mame/drivers/tmmjprd.c:121-181 | a plotted pixel lies in the cell's footprint and strictly inside the clip |
| TmmjprdRender.FourBppPens | src/mame/drivers/tmmjprd.c:145-169 | at 4bpp the pen is the high nibble at even columns and the low nibble at odd ones, never 15, and no colour bank is applied |
| TmmjprdRender.NibblePairSharesByte | src/mame/drivers/tmmjprd.c:149-169 | the two pixels of a 4bpp pair read one byte |
| TmmjprdRender.EightBppPens | src/mame/drivers/tmmjprd.c:171-183 | at 8bpp the pen is byte + colour * 256 with byte != 255, so its high byte is the colour |
| TmmjprdRender.EightBppBytesDistinct | src/mame/drivers/tmmjprd.c:137-184 | at 8bpp distinct pixels read distinct bytes, all within sizex * sizey bytes of the tile address |
| TmmjprdRender.Geometry | src/mame/drivers/tmmjprd.c:202-214 | the cell size is 8 or 16 and both scrolls are 12-bit values |
| TmmjprdRender.LayerSplit | src/mame/drivers/tmmjprd.c:216-226 | drawing cells lo..n-1 over cells 0..lo-1 is drawing cells 0..n-1 |
| TmmjprdRender.DrawTilemap | src/mame/drivers/tmmjprd.c:189-228 | every pixel ends as Layer says: the 4096 cells drawn in row-major order over the old bitmap |
| TmmjprdRender.DrawTilemapRow | src/mame/drivers/tmmjprd.c:219-225 | one grid row draws its 64 cells in order and advances the count by 64 |
| TmmjprdRender.LayerUnder | src/mame/drivers/tmmjprd.c:216-226 | when no cell plots a pixel, the pixel keeps its old value |
| TmmjprdRender.LayerSingle | src/mame/drivers/tmmjprd.c:216-226 | when only cell k may plot a pixel, the pixel shows cell k over its old value |
| TmmjprdRender.DivUnique | src/mame/drivers/tmmjprd.c:223 | a cell's column is fixed by any x inside its span |
| TmmjprdRender.OwnerCell | src/mame/drivers/tmmjprd.c:217-223 | the owner of a pixel, if any, is one of the 4096 cells |
| TmmjprdRender.CellOwnsFootprint | src/mame/drivers/tmmjprd.c:217-223 | a cell whose footprint holds a pixel is that pixel's owner, so the cells of a tilemap never overlap |
| TmmjprdRender.LayerIsOwner | src/mame/drivers/tmmjprd.c:216-226 | a whole tilemap pass leaves each pixel as its owner cell draws it; pixels beyond the grid (no wrap-around) keep their value |
| TmmjprdMachine.BackBank | src/mame/drivers/tmmjprd.c:238-249 | the tilemap under the sprites is bank 3 on the left screen and bank 1 on the right |
| TmmjprdMachine.FrontBank | src/mame/drivers/tmmjprd.c:238-249 | the tilemap over the sprites is bank 2 on the left screen and bank 0 on the right |
| TmmjprdMachine.ScreensUseDisjointBanks | src/mame/drivers/tmmjprd.c:238-249 | the two screens draw disjoint banks and together use all four |
| TmmjprdMachine.SpriteWalkOrder | src/mame/drivers/tmmjprd.c:79-107 | the walk visits even pair indices from 0x2ffe down to 2, strictly descending |
| TmmjprdMachine.SpriteWalkCovers | src/mame/drivers/tmmjprd.c:79-107 | every even pair index from 2 to 0x2ffe is visited; pair 0 is never drawn |
| TmmjprdMachine.Machine.constructor | src/mame/drivers/tmmjprd.c:275-283 | the four banks are 0x8000 zeroed words each, all arrays are distinct, and the brightness caches and the mux latch start at 0 |
| TmmjprdMachine.Machine.TilemapWrite | src/mame/drivers/tmmjprd.c:47-67 | the addressed word takes COMBINE_DATA of data and mask, and no other word of any bank changes |
| TmmjprdMachine.Machine.TilemapRead | src/mame/drivers/tmmjprd.c:285-303 | a read returns the stored word |
| TmmjprdMachine.Machine.PaletteWrite | src/mame/drivers/tmmjprd.c:553-563 | the palette word takes the masked write, its colour becomes the unpacked word, and no other entry changes |
| TmmjprdMachine.Machine.BrightnessWrite | src/mame/drivers/tmmjprd.c:565-603 | an enabled write with a new level updates that port's cache and the contrast of the 0x800 entries of its bank; any other write changes nothing |
| TmmjprdMachine.Machine.EepromWrite | src/mame/drivers/tmmjprd.c:428-446 | only a low-lane write latches the mux and only a top-lane write drives the EEPROM lines |
| TmmjprdMachine.Machine.ReadMux | src/mame/drivers/tmmjprd.c:448-464 | the mux port reads MuxRead of the latched value |
| TmmjprdMachine.Machine.DrawSprites | src/mame/drivers/tmmjprd.c:69-108 | 0x17ff requests are issued, the k-th decoded from the pair at 0x2ffe - 2k |
| TmmjprdMachine.Machine.VideoUpdate | src/mame/drivers/tmmjprd.c:230-273 | each pixel is the front layer over the sprites over the back layer over the black fill, in that order; the sprites are drawn from the requests issued with the screen's x offset |
| TmmjprdMachine.BlitSprites | src/mame/drivers/tmmjprd.c:240 | every pixel becomes what the sprite blit leaves over its old value |
| TmmjprdMachine.ClearedWords | src/mame/drivers/tmmjprd.c:279-282 | a fresh, zeroed array of the requested size |
| TmmjprdMachine.ClearedBanks | src/mame/drivers/tmmjprd.c:279-282 | four fresh, distinct, zeroed banks |
| TmmjprdMachine.FillRect | src/mame/drivers/tmmjprd.c:236 | the pen fills the clip rectangle, edges included, and nothing else changes |
| SdlCodes.SdlCode | src/osd/sdl/input.c:150 | an SDL key code is below 0x400 |
| SdlCodes.VkCode | src/osd/sdl/input.c:151 | a virtual key code is a byte |
| SdlCodes.AsciiCode | src/osd/sdl/input.c:152 | an ASCII code is a byte |
| SdlCodes.KeyCodeRoundTrip | src/osd/sdl/input.c:149-162 | packing key, virtual key and ASCII values and extracting them gives them back, and the result is a keyboard code |
| SdlCodes.KeyCodeFields | src/osd/sdl/input.c:149-152 | each field of a packed key code sits at its mask and shift |
| SdlCodes.KeyCodeOverlapExample | src/osd/sdl/input.c:149-152 | out-of-range fields collide: an ASCII value of 0x100 is lost, and an SDL key of 0x400 reads as virtual key 1 |
| SdlCodes.JoyIndex | src/osd/sdl/input.c:156 | a joystick element index is a byte |
| SdlCodes.CodeType | src/osd/sdl/input.c:157 | a code type is 4 bits |
| SdlCodes.JoyNum | src/osd/sdl/input.c:158 | a joystick number is 4 bits |
| SdlCodes.JoyCodeRoundTrip | src/osd/sdl/input.c:155-162 | packing device, type and index and extracting them gives them back, and the result is a joystick code |
| SdlCodes.JoyCodeFields | src/osd/sdl/input.c:155-158 | each field of a packed joystick code sits at its mask and shift |
| SdlCodes.JoyCodeTypeMatters | src/osd/sdl/input.c:155 | codes that differ only in type differ |
| SdlDigital.SkipDigits | src/osd/sdl/input.c:1057-1058 | the digit skip stops at the end or at the first non-digit |
| SdlDigital.SkipSpace | src/osd/sdl/input.c:1054 | sscanf's white-space skip stops at the end or at the first non-space |
| SdlDigital.DigitRunNonNegative | src/osd/sdl/input.c:1054 | a run of digits has a non-negative value |
| SdlDigital.SkipDigitsCovers | src/osd/sdl/input.c:1057-1058 | every skipped position is a digit |
| SdlDigital.ScanIntDigits | src/osd/sdl/input.c:1054 | a number that starts with a digit reads as that run of digits |
| SdlDigital.ScanIntNegative | src/osd/sdl/input.c:1054-1058 | a negative number can only be read when the text starts with white space or a minus sign |
| SdlDigital.JoysNonNegative | src/osd/sdl/input.c:1053-1095 | every request the walk produces names a joystick number of at least 0 |
| SdlDigital.AxesNonNegative | src/osd/sdl/input.c:1071-1095 | the axis loop of a non-negative joystick produces only non-negative joystick numbers |
| SdlDigital.SetRow | src/osd/sdl/input.c:1063-1064 | setting a row sets exactly the eight entries of that joystick and keeps the rest |
| SdlDigital.Apply | src/osd/sdl/input.c:1060-1094 | one request keeps the table size; which entries it sets is stated by ApplyAllOnlySets |
| SdlDigital.ApplyAll | src/osd/sdl/input.c:1044-1096 | applying requests keeps the table size; ApplyAllCons and ApplyAllOnlySets state its effect |
| SdlDigital.Filled | src/osd/sdl/input.c:1037-1040 | a filled table has every entry equal to the fill value |
| SdlDigital.DigitalTable | src/osd/sdl/input.c:1032-1110 | the parsed table keeps the table size; ParseDigital is proved to produce it, and the lemmas below state its contents for given options |
| SdlDigital.ApplyAllCons | src/osd/sdl/input.c:1044-1096 | applying a list is applying its head, then its tail |
| SdlDigital.JoysBareStep | src/osd/sdl/input.c:1060-1068 | a j<N> token at the end or before a comma asks for all of joystick N (with N >= 0), and the walk goes on after the comma |
| SdlDigital.JoysAtEnd | src/osd/sdl/input.c:1060-1066 | a j<N> token at the end is the last request, and the walk completes |
| SdlDigital.JoysAtComma | src/osd/sdl/input.c:1060-1068 | a j<N> token before a comma is followed by the walk after the comma |
| SdlDigital.JoysToAxes | src/osd/sdl/input.c:1053-1072 | any other j<N> token hands over to the axis loop, and a negative N leaves the cursor on a character that ends it |
| SdlDigital.AxesUnfold | src/osd/sdl/input.c:1085-1094 | an a<M> token asks for axis M of the current joystick, then the loop goes on after its digits |
| SdlDigital.AxesStops | src/osd/sdl/input.c:1079-1087 | anything but a comma or a well-formed a<M> token ends the walk at "usage" |
| SdlDigital.ScanOneDigit | src/osd/sdl/input.c:1054 | a lone digit reads as its value and the skip moves past it |
| SdlDigital.ScanMinusDigit | src/osd/sdl/input.c:1086-1090 | a minus sign and one digit read as the negated digit, while the digit skip does not move |
| SdlDigital.ApplyAllOnlySets | src/osd/sdl/input.c:1060-1094 | an entry is set after the requests exactly when it was set before or some accepted request names it |
| SdlDigital.AxisStaysInRow | src/osd/sdl/input.c:1093-1094 | with the corrected guard, a single-axis request lands inside its own joystick's row at its axis |
| SdlDigital.AxisGuardFinding | src/osd/sdl/input.c:1093-1094 | "j2a-1" gets through the guard as written and lands on joystick 1 axis 7, and "j1a-1" lands before the table; the corrected guard rejects both |
| SdlDigital.NegativeAxisToken | src/osd/sdl/input.c:1085-1094 | j<d>a-<e> asks for axis -e of joystick d, then stops at "usage" |
| SdlDigital.DigitalExample | src/osd/sdl/input.c:1104-1109 | "j1a5a6,j2" asks for axes 5 and 6 of joystick 1 and all of joystick 2 |
| SdlDigital.TwoAxesThenJoystick | src/osd/sdl/input.c:1053-1095 | the j<d>a<e>a<f>,j<g> shape yields those three requests in order and completes |
| SdlDigital.UsageKeepsEarlierRequests | src/osd/sdl/input.c:1053-1101 | "j1,x" stops at "usage", yet joystick 1 stays set: nothing is reverted |
| SdlDigital.OutOfRangeJoystickIgnored | src/osd/sdl/input.c:1063 | "j9" and "j0" leave the table as it was |
| SdlKeyboard.KeyTableFinding | src/osd/sdl/input.c:107-111 | SDLK_UP (273) is read past the 256-entry currkey under steadykey, and code 0x3ff past keyboard_state; every code fits 0x400 entries |
| SdlKeyboard.AsWrittenNextCurr | src/osd/sdl/input.c:1156-1177 | with 256-entry currkey and oldkey, the next reported state has 256 entries; SteadyKeyFinding and AsWrittenAgreesBelow state its values |
| SdlKeyboard.AsWrittenAgreesBelow | src/osd/sdl/input.c:1160-1173 | while no key from 256 up changes, the 256-key and the 0x400-key debouncers report the same state for keys below 256 |
| SdlKeyboard.SteadyKeyFinding | src/osd/sdl/input.c:1160-1173 | 'a' pressed, then SDLK_UP pressed with 'a' held: the 256-key loop reports 'a' pressed, the 0x400-key loop still held back |
| SdlKeyboard.MarkMissed | src/osd/sdl/input.c:1161-1168 | the marked table has one entry per key; MissedPressShownForOneFrame and ChangingKeysHeldBack state its values |
| SdlKeyboard.NextCurr | src/osd/sdl/input.c:1160-1173 | with every one of the 0x400 keys compared (the corrected size), the next reported state has one entry per key; the lemmas below state its values |
| SdlKeyboard.SettlesAfterTwoUpdates | src/osd/sdl/input.c:1160-1176 | two updates with the same live state report exactly the live state |
| SdlKeyboard.MissedPressShownForOneFrame | src/osd/sdl/input.c:1166-1168 | a press that was missed is reported as -1 for one update, then as released |
| SdlKeyboard.ChangingKeysHeldBack | src/osd/sdl/input.c:1160-1173 | while keys change, only a missed release changes a reported state, and an unchanged key keeps its reported state |
| SdlKeyboard.NextCurrValues | src/osd/sdl/input.c:1160-1173 | reported states stay within -1..1 |
| SdlJoystick.JoyAxisClamped | src/osd/sdl/input.c:1368-1377 | an analog axis reads 0 with joysticks off, else its reading clamped to the analog range, equal to the reading exactly when that is in range |
| SdlJoystick.ClampRange | src/osd/sdl/input.c:1374-1375 | the clamp lands in the analog range, is the identity exactly inside it, and saturates at either end |
| SdlJoystick.JoyAxisReadsAxes | src/osd/sdl/input.c:1370 | the first eight analog elements are the axes |
| SdlJoystick.MouseAxisValue | src/osd/sdl/input.c:1380-1402 | mouse elements 0 and 1 read x and y times 512, and any other element reads 0 |
| SdlJoystick.MouseDirectionsFollowAxis | src/osd/sdl/input.c:1400-1410 | the digital mouse directions report whether the analog value is above or below zero |
| SdlJoystick.AxisDirectionsExclusive | src/osd/sdl/input.c:1327-1343 | for every axis index up to the end of the row, with a dead zone of at least 0, an axis never reads both ways; with no dead zone, it reads one way exactly when its word is non-zero |
| SdlJoystick.AxisPastAxesReadsButton | src/osd/sdl/input.c:1327-1343 | an AXIS_POS or AXIS_NEG code with index 8 to 39 compares button index - 8 of the same row against the dead zone |
| SdlJoystick.AxisRefs | src/osd/sdl/input.c:924-943 | one axis adds the analog axis and its halves only when its joystick_digital entry is clear, then the two digital directions, all for that stick and axis |
| SdlJoystick.AxesRefs | src/osd/sdl/input.c:924-943 | the axis loop adds codes for that stick only, with indices below the axis count |
| SdlJoystick.ButtonRefs | src/osd/sdl/input.c:946-950 | the button loop adds one button code per button, in order |
| SdlJoystick.PadRefs | src/osd/sdl/input.c:910-952 | every code added names one of the opened sticks |
| SdlJoystick.AxesRefsInAxes | src/osd/sdl/input.c:924-943 | with at most eight axes, every axis code of a stick below 8 reads one of its axes |
| SdlJoystick.JoyRefsInBounds | src/osd/sdl/input.c:910-952 | with the loops capped at the table sizes, every code added reads inside joystick_state, and every axis code reads an axis |
| SdlJoystick.NinthAxisFinding | src/osd/sdl/input.c:924-943 | as written, a nine-axis pad gets AXIS_POS index 8, and its axis 8 adds as many codes as the next stick's axis 0 because both consult the same joystick_digital entry; capped, it does not |
| SdlJoystick.NinthPadFinding | src/osd/sdl/input.c:913-950 | as written, a ninth pad gets a button code for joystick 8, outside joystick_state; capped, it does not |
| SdlJoystick.ButtonValue | src/osd/sdl/input.c:1322-1325 | button and mouse-button codes read the button they name |
| SdlJoystick.UnhandledTypesReadZero | src/osd/sdl/input.c:1320-1427 | hat, directional analog, keyboard and gun types read 0 |
| SdlJoystick.FirstMatch | src/osd/sdl/input.c:1293-1296 | the search stops at the first row with the code, or at the table's end when there is none |
| SdlJoystick.TranslationFound | src/osd/sdl/input.c:1293-1303 | in a table without repeated codes, a code's row gives its input code, and a code without a row keeps the caller's |
| SdlInput.AnalogSelect | src/osd/sdl/input.c:1014-1029 | "mouse" and "joystick" select those sources, and every other string selects the keyboard |
| SdlInput.InputState.constructor | src/osd/sdl/input.c:100-128 | every table starts at 0: joystick_digital, keyboard_state, oldkey, currkey, analog_type (the keyboard source), and every axis, button and mouse delta of joystick_state and mouse_state; the escape toggle starts at 1 and the code list is empty |
| SdlInput.InputState.ParseAnalogSelect | src/osd/sdl/input.c:1014-1029 | the entry for the type takes the named source and no other entry changes |
| SdlInput.InputState.ParseDigital | src/osd/sdl/input.c:1032-1110 | the table becomes DigitalTable of the option and the old table |
| SdlInput.InputState.ParseAxes | src/osd/sdl/input.c:1071-1095 | the axis loop either stops at "usage" with every request applied, or returns past the end or comma with the rest of the walk still to apply |
| SdlInput.InputState.AxisToken | src/osd/sdl/input.c:1085-1094 | one a<M> token is applied and the cursor moves past its digits |
| SdlInput.InputState.MarkJoystick | src/osd/sdl/input.c:1063-1064 | the table becomes Apply of an all-axes request |
| SdlInput.InputState.MarkAxis | src/osd/sdl/input.c:1093-1094 | the table becomes Apply of a one-axis request |
| SdlInput.InputState.UpdateKeyboard | src/osd/sdl/input.c:1156-1177 | currkey becomes NextCurr of the live state, oldkey and currkey over all 0x400 keys (the corrected size), and oldkey becomes the live state |
| SdlInput.InputState.IsKeyPressed | src/osd/sdl/input.c:1185-1201 | escape while quitting toggles and returns the toggle; any other key reads the debounced state under steadykey, else the live state |
| SdlInput.InputState.GetJoycodeValue | src/osd/sdl/input.c:1312-1428 | for every code whose reads stay inside the joystick and mouse rows, including axis indices that run on into the buttons, the result is JoycodeValue, and a mouse code activates the mouse when mice are allowed and no menu is open |
| SdlInput.InputState.GetCodeValue | src/osd/sdl/input.c:1436-1442 | keyboard codes give the key reading and joystick codes whose reads stay inside the rows give the joystick value |
| SdlInput.InputState.AddJoylistEntry | src/osd/sdl/input.c:1285-1306 | when the name is copied, one entry is appended with the table's input code for the os code, or the caller's when there is none |
| SdlInput.SkipDigitRun | src/osd/sdl/input.c:1057-1090 | the cursor loop stops where SkipDigits says |

## Left out

- The blitter, sound, view registers and sprite registers of tmmjprd are disabled (`#if 0`) or only stored by the source, so they are not modelled.
- The pixels drawgfx_transpen draws for a sprite are not modelled. DrawSprites returns the decoded requests, in order. VideoUpdate takes the pixels they produce as the parameter `blit`, a function of the requests, the pixel and the pen beneath, and applies it between the two tilemap passes. The drawgfx core is not part of this model.
- The palette contrast is a `double` in the source (`level / 16.0`). The model stores the 4-bit level: the comparison with the cached value and the written contrast are the same for every level.
- The EEPROM device, the input ports and palette_set_color are outside the driver. EepromWrite returns the lines it drives, MuxRead takes the port values, and PaletteWrite stores the colour.
- The address map, the graphics layouts, ROM loading and the machine configuration are framework tables; only the constants the handlers use are modelled.
- TmmjprdRender.DrawTile: requires the ROM to hold the byte of every footprint pixel of a cell that passes the four early returns. The source reads a byte only for a pixel strictly inside the clip, so for a cell the clip cuts this asks for bytes the source never reads. With the 0x2000000-byte graphics region, it excludes only the last few tile addresses.
- TmmjprdRender.DrawTilemap: requires the ROM to cover the footprint of every cell of the bank in the same way.
- TmmjprdMachine.Machine.VideoUpdate: requires the ROM to cover the footprint of every cell of both banks in the same way.
- SdlKeyboard.NextCurr: compares, marks and copies all 0x400 keys, the corrected table size. For keys below 256 this differs from the source: a change at a key from 256 up holds back the lower keys too. The source's 256-key loop is SdlKeyboard.AsWrittenNextCurr (see Findings).
- The SDL event loop, window code, keymap file loading, option parsing from the command line and every `fprintf` are I/O. The model's state takes their results as fields (`joys`, `mice`, `keyboardState`, `tryingToQuit`), and `win_has_menu()` becomes the parameter `hasMenu`.
- SdlInput.InputState.AddJoylistEntry: takes the translation table as a parameter rather than the 200-row literal. Whether the name copy succeeded is the parameter `copied`. It also requires room in `codelist`, which the source assumes.
- SdlJoystick.JoycodeValue: `a2d_deadzone` is a C `float`. The model uses an exact `real` and does not model float rounding of `(top - middle) * a2d_deadzone`.
- SdlJoystick.MouseAxisValue: does not model 32-bit overflow of `lX * 512`.
- SdlDigital.ScanInt: does not model sscanf's behaviour on numbers too large for an `int`.
- SdlDigital.DigitalTable: a Dafny string may hold '\0', where the C string ends. The model walks on past it, so "j1\0" counts as a malformed token instead of "j1". Options from the command line hold no NUL.
- SdlJoystick.JoycodeValue: requires a joystick number below 8, an axis index below 40 (the axes, then the buttons of the same row) and a button below 32. Codes outside these read past joystick_state or mouse_state, so their value is not modelled. Only the uncapped loops of win_init_input build such codes (see Findings).
- SdlInput.InputState.GetJoycodeValue: requires a code that SdlJoystick.JoycodeValue accepts, for that reason.
- SdlInput.InputState.GetCodeValue: requires a joystick code that SdlJoystick.JoycodeValue accepts, for that reason.
- The code list win_init_input builds is modelled for the joysticks only, as the (joystick, type, index) fields of each JOYCODE (SdlJoystick.PadRefs). The names, the mouse codes, the packing overflow of JOYCODE (a joystick from 16 up spills past the 4-bit joystick field, an axis or button index from 256 up spills into the code type), and the joystick_device table are not modelled. joystick_digital is read as a flat function of the index `stick * 8 + axis`.
- The hat, gun and per-direction analog types sit under `#if 0` in get_joycode_value and read 0 in the model.
- ANALOG_VALUE_MIN/MAX (±0x10000) and the SDL 1.2 key numbers (SDLK_ESCAPE 27, SDLK_UP 273) come from headers that are not part of this model. Their values are written as constants.
- SdlDigital.Apply: names no row for a joystick number below 1 that passes the joystick guard. Such a number would be negative, and SdlDigital.JoysNonNegative proves that no parse produces one.
- SdlInput.InputState.MarkJoystick and SdlInput.InputState.MarkAxis: require a joystick number of at least 0 for the same reason.
- The joystick row read through `(int *)&joystick_state[n].axes` is modelled as the axes followed by the buttons (SdlJoystick.RawWord). That is the struct's layout; padding is not modelled.

## Findings

| source | as written | input that shows it | evidently intended | confidence | as-written member | corrected member |
|---|---|---|---|---|---|---|
| src/osd/sdl/input.c:1093-1094 | the axis guard has no lower bound on `axisnum`, so `joystick_digital[joynum - 1][axisnum]` may be written at a negative axis | option "j2a-1" sets joystick 1 axis 7; option "j1a-1" writes one byte before the table | also require `axisnum >= 0` | not executed | SdlDigital.AsWrittenAxisAccepted, SdlDigital.AxisGuardFinding | SdlDigital.AxisAccepted, SdlDigital.Apply, SdlDigital.DigitalTable, SdlInput.InputState.MarkAxis, SdlInput.InputState.ParseDigital, SdlDigital.AxisStaysInRow, SdlDigital.ApplyAllOnlySets |
| src/osd/sdl/input.c:910-952 | the stick, axis and button loops run to the counts SDL reports, with no cap at MAX_JOYSTICKS, MAX_AXES or MAX_BUTTONS | a pad with nine axes gets AXIS_POS/AXIS_NEG codes at index 8, which read its first button, and `joystick_digital[0][8]` is joystick 2's axis 0; a ninth pad gets codes for `joystick_state[8]`, past the table | stop the loops at MAX_JOYSTICKS, MAX_AXES and MAX_BUTTONS | not executed | SdlJoystick.AsWrittenJoyRefs, SdlJoystick.NinthAxisFinding, SdlJoystick.NinthPadFinding | SdlJoystick.JoyRefs, SdlJoystick.JoyRefsInBounds |
| src/osd/sdl/input.c:107-111 | `currkey`/`oldkey` have MAX_KEYS = 256 entries and `keyboard_state` 0x3ff, but SDLCODE ranges over 0..0x3ff; is_key_pressed (lines 1196-1200) and updatekeyboard (line 1161) index them with it | with steadykey on, reading KEYCODE_UP (SDLK_UP = 273) reads `currkey[273]`, past the table; code 0x3ff reads past `keyboard_state`. updatekeyboard never debounces keys from 256 up: with 'a' (97) pressed at one update and SDLK_UP pressed while 'a' is held at the next, the source sees no change and reports 'a' pressed. Comparing every key, as the correction does, holds 'a' back for one more update, so the correction also changes what keys below 256 report | every table one entry per SDLCODE value (0x400) | not executed | SdlKeyboard.AsWrittenReadInBounds, SdlKeyboard.KeyTableFinding, SdlKeyboard.AsWrittenNextCurr, SdlKeyboard.SteadyKeyFinding | SdlKeyboard.NextCurr, SdlKeyboard.AsWrittenAgreesBelow, SdlInput.InputState.UpdateKeyboard, SdlInput.InputState.IsKeyPressed |
