/**
 * The os_code packing of the SDL input layer (src/osd/sdl/input.c): keyboard
 * codes pack an SDL key symbol, a virtual key and an ASCII value; joystick
 * codes pack an element index, a code type and a device number, with bit 31
 * telling the two kinds apart.
 */
module SdlCodes {

  type OsCode = bv32

  const MaxJoysticks := 8
  const MaxAxes := 8
  const MaxButtons := 32

  /** The code types of a joystick code (bits 8-11). */
  const CodeTypeKeyboard := 0
  const CodeTypeAxisNeg := 1
  const CodeTypeAxisPos := 2
  const CodeTypePovUp := 3
  const CodeTypePovDown := 4
  const CodeTypePovLeft := 5
  const CodeTypePovRight := 6
  const CodeTypeButton := 7
  const CodeTypeJoyAxis := 8
  const CodeTypeJoyAxisNeg := 9
  const CodeTypeJoyAxisPos := 10
  const CodeTypeMouseAxis := 11
  const CodeTypeMouseNeg := 12
  const CodeTypeMousePos := 13
  const CodeTypeMouseButton := 14
  const CodeTypeGunAxis := 15

  // ---------------------------------------------------------------- keyboard codes

  /** KEYCODE(sdlk, vk, ascii): sdlk in bits 0-9, vk in bits 10-17, ascii from bit 18. */
  function KeyCode(sdlk: bv32, vk: bv32, ascii: bv32): OsCode {
    sdlk | (vk << 10) | (ascii << 18)
  }

  /** SDLCODE: bits 0-9. */
  function SdlCode(c: OsCode): (k: int)
    ensures 0 <= k < 0x400
  {
    (c & 0x3ff) as int
  }

  /** VKCODE: bits 10-17. */
  function VkCode(c: OsCode): (v: int)
    ensures 0 <= v < 0x100
  {
    ((c >> 10) & 0xff) as int
  }

  /** ASCIICODE: bits 18-25. */
  function AsciiCode(c: OsCode): (a: int)
    ensures 0 <= a < 0x100
  {
    ((c >> 18) & 0xff) as int
  }

  predicate IsKeyboardCode(c: OsCode) {
    c & 0x8000_0000 == 0
  }

  predicate IsJoystickCode(c: OsCode) {
    c & 0x8000_0000 != 0
  }

  /** The three extractors recover the packed fields, and the result is a keyboard code. */
  lemma KeyCodeRoundTrip(sdlk: bv32, vk: bv32, ascii: bv32)
    requires sdlk < 0x400 && vk < 0x100 && ascii < 0x100
    ensures SdlCode(KeyCode(sdlk, vk, ascii)) == sdlk as int
    ensures VkCode(KeyCode(sdlk, vk, ascii)) == vk as int
    ensures AsciiCode(KeyCode(sdlk, vk, ascii)) == ascii as int
    ensures IsKeyboardCode(KeyCode(sdlk, vk, ascii)) && !IsJoystickCode(KeyCode(sdlk, vk, ascii))
  {
    KeyCodeFields(sdlk, vk, ascii);
  }

  lemma KeyCodeFields(sdlk: bv32, vk: bv32, ascii: bv32)
    requires sdlk < 0x400 && vk < 0x100 && ascii < 0x100
    ensures var c := KeyCode(sdlk, vk, ascii);
      c & 0x3ff == sdlk && (c >> 10) & 0xff == vk && (c >> 18) & 0xff == ascii && c & 0x8000_0000 == 0
  {
  }

  /** Without the range requirement the fields overlap: an ASCII value of 0x100 lands in no field at all. */
  lemma KeyCodeOverlapExample()
    ensures AsciiCode(KeyCode(0, 0, 0x100)) == 0
    ensures SdlCode(KeyCode(0x400, 0, 0)) == 0 && VkCode(KeyCode(0x400, 0, 0)) == 1
  {
  }

  // ---------------------------------------------------------------- joystick codes

  /** JOYCODE(joy, type, index): index in bits 0-7, type in 8-11, joystick in 12-15, bit 31 set. */
  function JoyCode(joy: bv32, codeType: bv32, index: bv32): OsCode {
    index | (codeType << 8) | (joy << 12) | 0x8000_0000
  }

  /** JOYINDEX: bits 0-7. */
  function JoyIndex(c: OsCode): (i: int)
    ensures 0 <= i < 0x100
  {
    (c & 0xff) as int
  }

  /** CODETYPE: bits 8-11. */
  function CodeType(c: OsCode): (t: int)
    ensures 0 <= t < 0x10
  {
    ((c >> 8) & 0xf) as int
  }

  /** JOYNUM: bits 12-15. */
  function JoyNum(c: OsCode): (j: int)
    ensures 0 <= j < 0x10
  {
    ((c >> 12) & 0xf) as int
  }

  /** The three extractors recover the packed fields, and the result is a joystick code. */
  lemma JoyCodeRoundTrip(joy: bv32, codeType: bv32, index: bv32)
    requires joy < 0x10 && codeType < 0x10 && index < 0x100
    ensures JoyNum(JoyCode(joy, codeType, index)) == joy as int
    ensures CodeType(JoyCode(joy, codeType, index)) == codeType as int
    ensures JoyIndex(JoyCode(joy, codeType, index)) == index as int
    ensures IsJoystickCode(JoyCode(joy, codeType, index)) && !IsKeyboardCode(JoyCode(joy, codeType, index))
  {
    JoyCodeFields(joy, codeType, index);
  }

  lemma JoyCodeFields(joy: bv32, codeType: bv32, index: bv32)
    requires joy < 0x10 && codeType < 0x10 && index < 0x100
    ensures var c := JoyCode(joy, codeType, index);
      (c >> 12) & 0xf == joy && (c >> 8) & 0xf == codeType && c & 0xff == index && c & 0x8000_0000 != 0
  {
  }

  /** Two joystick codes that agree in device and index and differ only in type differ. */
  lemma JoyCodeTypeMatters(joy: bv32, t1: bv32, t2: bv32, index: bv32)
    requires joy < 0x10 && t1 < 0x10 && t2 < 0x10 && index < 0x100 && t1 != t2
    ensures JoyCode(joy, t1, index) != JoyCode(joy, t2, index)
  {
    JoyCodeRoundTrip(joy, t1, index);
    JoyCodeRoundTrip(joy, t2, index);
  }
}
