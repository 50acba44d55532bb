/**
 * Values of joystick and mouse codes (get_joycode_value in
 * src/osd/sdl/input.c) read from the device snapshot the SDL event loop keeps,
 * and the lookup of a joystick code in the translation table
 * (add_joylist_entry).
 */
module SdlJoystick {
  import opened SdlCodes

  /** ANALOG_VALUE_MIN and ANALOG_VALUE_MAX of the emulator's input core. */
  const AnalogValueMin := -0x10000
  const AnalogValueMax := 0x10000

  /** The extremes of an SDL axis reading that the digital directions compare against. */
  const AxisTop := 32767
  const AxisBottom := -32768

  /** Mouse deltas are scaled by this factor. */
  const MouseScale := 512

  /** joystick_state[n]: the axis readings, then the buttons, laid out in that order. */
  datatype JoyState = JoyState(axes: seq<int>, buttons: seq<int>)

  /** mouse_state[n]: the relative motion of the last frame and the buttons. */
  datatype MouseState = MouseState(lX: int, lY: int, buttons: seq<int>)

  predicate ValidJoys(js: seq<JoyState>) {
    |js| == MaxJoysticks &&
    forall n :: 0 <= n < |js| ==> |js[n].axes| == MaxAxes && |js[n].buttons| == MaxButtons
  }

  predicate ValidMice(ms: seq<MouseState>) {
    |ms| == MaxJoysticks && forall n :: 0 <= n < |ms| ==> |ms[n].buttons| == MaxButtons
  }

  /**
   * What get_joycode_value needs of a code's type, joystick and index to stay
   * inside the joystick_state and mouse_state rows it reads. The axis reads
   * index the row from its axes on, so an axis index may run on into the
   * buttons.
   */
  predicate ValidFields(t: int, n: int, i: int) {
    (t == CodeTypeMouseButton ==> 0 <= n < MaxJoysticks && 0 <= i < MaxButtons) &&
    (t == CodeTypeButton ==> 0 <= n < MaxJoysticks && 0 <= i < MaxButtons) &&
    ((t == CodeTypeAxisPos || t == CodeTypeAxisNeg || t == CodeTypeJoyAxis) ==>
       0 <= n < MaxJoysticks && 0 <= i < MaxAxes + MaxButtons) &&
    ((t == CodeTypeMouseAxis || t == CodeTypeMouseNeg || t == CodeTypeMousePos) ==> 0 <= n < MaxJoysticks)
  }

  predicate ValidJoycode(c: OsCode) {
    ValidFields(CodeType(c), JoyNum(c), JoyIndex(c))
  }

  /** ((int *)&joystick_state[n].axes)[i]: an analog read may run on from the axes into the buttons. */
  function RawWord(s: JoyState, i: nat): int
    requires |s.axes| == MaxAxes && |s.buttons| == MaxButtons && i < MaxAxes + MaxButtons
  {
    (s.axes + s.buttons)[i]
  }

  function Clamp(v: int): int {
    if v < AnalogValueMin then AnalogValueMin
    else if v > AnalogValueMax then AnalogValueMax
    else v
  }

  /** Mouse element 0 is the x delta and element 1 the y delta, both scaled; any other element reads 0. */
  function MouseDelta(m: MouseState, i: nat): int {
    if i == 0 then m.lX * MouseScale
    else if i == 1 then m.lY * MouseScale
    else 0
  }

  function Bit(b: bool): int {
    if b then 1 else 0
  }

  /**
   * The value of a joystick or mouse code. The digital axis directions
   * compare against the dead zone fraction exactly; the types the source
   * leaves under #if 0 (hat directions, light guns) and the types it never
   * handles read 0.
   */
  function JoycodeValue(c: OsCode, js: seq<JoyState>, ms: seq<MouseState>, useJoystick: bool, deadzone: real): int
    requires ValidJoycode(c) && ValidJoys(js) && ValidMice(ms)
  {
    var t, n, i := CodeType(c), JoyNum(c), JoyIndex(c);
    if t == CodeTypeMouseButton then ms[n].buttons[i]
    else if t == CodeTypeButton then js[n].buttons[i]
    else if t == CodeTypeAxisPos then Bit(RawWord(js[n], i) as real > AxisTop as real * deadzone)
    else if t == CodeTypeAxisNeg then Bit((RawWord(js[n], i) as real) < -(0 - AxisBottom) as real * deadzone)
    else if t == CodeTypeJoyAxis then (if useJoystick then Clamp(RawWord(js[n], i)) else 0)
    else if t == CodeTypeMouseAxis then MouseDelta(ms[n], i)
    else if t == CodeTypeMousePos then Bit(MouseDelta(ms[n], i) > 0)
    else if t == CodeTypeMouseNeg then Bit(MouseDelta(ms[n], i) < 0)
    else 0
  }

  // ---------------------------------------------------------------- properties of the values

  /** An analog joystick axis reads 0 while joysticks are off, else its reading held to the analog range. */
  lemma JoyAxisClamped(c: OsCode, js: seq<JoyState>, ms: seq<MouseState>, useJoystick: bool, deadzone: real)
    requires CodeType(c) == CodeTypeJoyAxis && JoyNum(c) < MaxJoysticks && JoyIndex(c) < MaxAxes + MaxButtons
    requires ValidJoys(js) && ValidMice(ms)
    ensures ValidJoycode(c)
    ensures var r := JoycodeValue(c, js, ms, useJoystick, deadzone);
      var v := RawWord(js[JoyNum(c)], JoyIndex(c));
      (!useJoystick ==> r == 0) &&
      (useJoystick ==> AnalogValueMin <= r <= AnalogValueMax) &&
      (useJoystick ==> (r == v <==> AnalogValueMin <= v <= AnalogValueMax)) &&
      (useJoystick && v < AnalogValueMin ==> r == AnalogValueMin) &&
      (useJoystick && v > AnalogValueMax ==> r == AnalogValueMax)
  {
    ClampRange(RawWord(js[JoyNum(c)], JoyIndex(c)));
  }

  lemma ClampRange(v: int)
    ensures AnalogValueMin <= Clamp(v) <= AnalogValueMax
    ensures Clamp(v) == v <==> AnalogValueMin <= v <= AnalogValueMax
    ensures v < AnalogValueMin ==> Clamp(v) == AnalogValueMin
    ensures v > AnalogValueMax ==> Clamp(v) == AnalogValueMax
  {
  }

  /** The first eight analog elements of a joystick are its axes. */
  lemma JoyAxisReadsAxes(s: JoyState, i: nat)
    requires |s.axes| == MaxAxes && |s.buttons| == MaxButtons && i < MaxAxes
    ensures RawWord(s, i) == s.axes[i]
  {
  }

  /** Mouse elements 0 and 1 read the scaled x and y deltas; other elements read 0. */
  lemma MouseAxisValue(joy: bv32, index: bv32, js: seq<JoyState>, ms: seq<MouseState>, useJoystick: bool, deadzone: real)
    requires joy < MaxJoysticks as bv32 && index < 0x100 && ValidJoys(js) && ValidMice(ms)
    ensures var c := JoyCode(joy, CodeTypeMouseAxis as bv32, index);
      ValidJoycode(c) &&
      var r := JoycodeValue(c, js, ms, useJoystick, deadzone);
      (index == 0 ==> r == ms[joy as int].lX * 512) &&
      (index == 1 ==> r == ms[joy as int].lY * 512) &&
      (index > 1 ==> r == 0)
  {
    JoyCodeRoundTrip(joy, CodeTypeMouseAxis as bv32, index);
  }

  /** The digital mouse directions of an element report whether its analog value is above or below zero. */
  lemma MouseDirectionsFollowAxis(joy: bv32, index: bv32, js: seq<JoyState>, ms: seq<MouseState>, useJoystick: bool, deadzone: real)
    requires joy < MaxJoysticks as bv32 && index < 0x100 && ValidJoys(js) && ValidMice(ms)
    ensures var a := JoyCode(joy, CodeTypeMouseAxis as bv32, index);
      var p := JoyCode(joy, CodeTypeMousePos as bv32, index);
      var q := JoyCode(joy, CodeTypeMouseNeg as bv32, index);
      ValidJoycode(a) && ValidJoycode(p) && ValidJoycode(q) &&
      var v := JoycodeValue(a, js, ms, useJoystick, deadzone);
      JoycodeValue(p, js, ms, useJoystick, deadzone) == (if v > 0 then 1 else 0) &&
      JoycodeValue(q, js, ms, useJoystick, deadzone) == (if v < 0 then 1 else 0)
  {
    JoyCodeRoundTrip(joy, CodeTypeMouseAxis as bv32, index);
    JoyCodeRoundTrip(joy, CodeTypeMousePos as bv32, index);
    JoyCodeRoundTrip(joy, CodeTypeMouseNeg as bv32, index);
  }

  /** With a non-negative dead zone an axis never reads as pushed both ways, and with a zero dead zone any deflection reads as one way. */
  lemma AxisDirectionsExclusive(joy: bv32, index: bv32, js: seq<JoyState>, ms: seq<MouseState>, useJoystick: bool, deadzone: real)
    requires joy < MaxJoysticks as bv32 && index < (MaxAxes + MaxButtons) as bv32 && ValidJoys(js) && ValidMice(ms) && 0.0 <= deadzone
    ensures var p := JoyCode(joy, CodeTypeAxisPos as bv32, index);
      var q := JoyCode(joy, CodeTypeAxisNeg as bv32, index);
      ValidJoycode(p) && ValidJoycode(q) &&
      var up := JoycodeValue(p, js, ms, useJoystick, deadzone);
      var down := JoycodeValue(q, js, ms, useJoystick, deadzone);
      0 <= up + down <= 1 &&
      (deadzone == 0.0 ==> (up + down == 1 <==> RawWord(js[joy as int], index as int) != 0))
  {
    JoyCodeRoundTrip(joy, CodeTypeAxisPos as bv32, index);
    JoyCodeRoundTrip(joy, CodeTypeAxisNeg as bv32, index);
  }

  /**
   * A digital axis code whose index is past the eight axes, as win_init_input
   * builds for a pad with more axes, reads a button word of the same row.
   */
  lemma AxisPastAxesReadsButton(joy: bv32, index: bv32, js: seq<JoyState>, ms: seq<MouseState>, useJoystick: bool, deadzone: real)
    requires joy < MaxJoysticks as bv32 && MaxAxes as bv32 <= index < (MaxAxes + MaxButtons) as bv32
    requires ValidJoys(js) && ValidMice(ms)
    ensures var p := JoyCode(joy, CodeTypeAxisPos as bv32, index);
      var b := js[joy as int].buttons[index as int - MaxAxes];
      ValidJoycode(p) && JoycodeValue(p, js, ms, useJoystick, deadzone) == Bit(b as real > AxisTop as real * deadzone)
    ensures var q := JoyCode(joy, CodeTypeAxisNeg as bv32, index);
      var b := js[joy as int].buttons[index as int - MaxAxes];
      ValidJoycode(q) && JoycodeValue(q, js, ms, useJoystick, deadzone) == Bit((b as real) < -(0 - AxisBottom) as real * deadzone)
  {
    JoyCodeRoundTrip(joy, CodeTypeAxisPos as bv32, index);
    JoyCodeRoundTrip(joy, CodeTypeAxisNeg as bv32, index);
  }

  /** A button code reads the button it names. */
  lemma ButtonValue(joy: bv32, index: bv32, js: seq<JoyState>, ms: seq<MouseState>, useJoystick: bool, deadzone: real)
    requires joy < MaxJoysticks as bv32 && index < MaxButtons as bv32 && ValidJoys(js) && ValidMice(ms)
    ensures var b := JoyCode(joy, CodeTypeButton as bv32, index);
      var m := JoyCode(joy, CodeTypeMouseButton as bv32, index);
      ValidJoycode(b) && ValidJoycode(m) &&
      JoycodeValue(b, js, ms, useJoystick, deadzone) == js[joy as int].buttons[index as int] &&
      JoycodeValue(m, js, ms, useJoystick, deadzone) == ms[joy as int].buttons[index as int]
  {
    JoyCodeRoundTrip(joy, CodeTypeButton as bv32, index);
    JoyCodeRoundTrip(joy, CodeTypeMouseButton as bv32, index);
  }

  /** Hat directions, the directional analog types, keyboard and gun types read 0. */
  lemma UnhandledTypesReadZero(c: OsCode, js: seq<JoyState>, ms: seq<MouseState>, useJoystick: bool, deadzone: real)
    requires ValidJoycode(c) && ValidJoys(js) && ValidMice(ms)
    requires CodeType(c) in {CodeTypeKeyboard, CodeTypePovUp, CodeTypePovDown, CodeTypePovLeft, CodeTypePovRight,
                             CodeTypeJoyAxisNeg, CodeTypeJoyAxisPos, CodeTypeGunAxis}
    ensures JoycodeValue(c, js, ms, useJoystick, deadzone) == 0
  {
  }

  // ---------------------------------------------------------------- the codes win_init_input builds

  /** What SDL reports for one opened joystick. */
  datatype Pad = Pad(axes: nat, buttons: nat)

  /** The fields of one JOYCODE(joy, codeType, index) that win_init_input adds to the code list. */
  datatype JoyRef = JoyRef(joy: nat, codeType: nat, index: nat)

  function Min(a: nat, b: nat): nat {
    if a < b then a else b
  }

  /**
   * The codes for one axis: the analog axis and its two halves when
   * joystick_digital has the axis clear, then the two digital directions.
   * digital is the joystick_digital table read flat, as the two-dimensional
   * index [stick][axis] addresses it.
   */
  function AxisRefs(stick: nat, axis: nat, digital: nat -> bool): (r: seq<JoyRef>)
    ensures |r| == if digital(stick * MaxAxes + axis) then 2 else 5
    ensures forall k :: 0 <= k < |r| ==> r[k].joy == stick && r[k].index == axis
  {
    (if digital(stick * MaxAxes + axis) then []
     else [JoyRef(stick, CodeTypeJoyAxis, axis), JoyRef(stick, CodeTypeJoyAxisPos, axis), JoyRef(stick, CodeTypeJoyAxisNeg, axis)])
    + [JoyRef(stick, CodeTypeAxisNeg, axis), JoyRef(stick, CodeTypeAxisPos, axis)]
  }

  /** The axis loop of one stick over axes 0 .. n - 1. */
  function AxesRefs(stick: nat, n: nat, digital: nat -> bool): (r: seq<JoyRef>)
    ensures forall k :: 0 <= k < |r| ==> r[k].joy == stick && r[k].index < n
  {
    if n == 0 then [] else AxesRefs(stick, n - 1, digital) + AxisRefs(stick, n - 1, digital)
  }

  /** The button loop of one stick over buttons 0 .. n - 1. */
  function ButtonRefs(stick: nat, n: nat): (r: seq<JoyRef>)
    ensures |r| == n
    ensures forall k :: 0 <= k < n ==> r[k] == JoyRef(stick, CodeTypeButton, k)
  {
    if n == 0 then [] else ButtonRefs(stick, n - 1) + [JoyRef(stick, CodeTypeButton, n - 1)]
  }

  /**
   * The joystick codes win_init_input adds for the opened pads, stick by
   * stick: every axis, then every button. As written (capped false) the
   * three loops run to the counts SDL reports; capped, they stop at
   * MaxJoysticks, MaxAxes and MaxButtons.
   */
  function PadRefs(pads: seq<Pad>, digital: nat -> bool, capped: bool): (r: seq<JoyRef>)
    ensures forall k :: 0 <= k < |r| ==> r[k].joy < |pads|
  {
    if |pads| == 0 then []
    else
      var s := |pads| - 1;
      var rest := PadRefs(pads[..s], digital, capped);
      if capped && s >= MaxJoysticks then rest
      else
        var axes := if capped then Min(pads[s].axes, MaxAxes) else pads[s].axes;
        var buttons := if capped then Min(pads[s].buttons, MaxButtons) else pads[s].buttons;
        rest + AxesRefs(s, axes, digital) + ButtonRefs(s, buttons)
  }

  function AsWrittenJoyRefs(pads: seq<Pad>, digital: nat -> bool): seq<JoyRef> {
    PadRefs(pads, digital, false)
  }

  function JoyRefs(pads: seq<Pad>, digital: nat -> bool): seq<JoyRef> {
    PadRefs(pads, digital, true)
  }

  /** A code that get_joycode_value reads inside the rows, with its axis reads inside the axes. */
  predicate InAxesAndRows(r: JoyRef) {
    ValidFields(r.codeType, r.joy, r.index) && r.joy < MaxJoysticks &&
    (r.codeType in {CodeTypeAxisNeg, CodeTypeAxisPos, CodeTypeJoyAxis, CodeTypeJoyAxisNeg, CodeTypeJoyAxisPos} ==> r.index < MaxAxes) &&
    (r.codeType == CodeTypeButton ==> r.index < MaxButtons)
  }

  lemma {:induction false} AxesRefsInAxes(stick: nat, n: nat, digital: nat -> bool)
    requires stick < MaxJoysticks && n <= MaxAxes
    ensures forall k :: 0 <= k < |AxesRefs(stick, n, digital)| ==> InAxesAndRows(AxesRefs(stick, n, digital)[k])
    ensures forall k :: 0 <= k < |AxesRefs(stick, n, digital)| ==> AxesRefs(stick, n, digital)[k].codeType != CodeTypeButton
  {
    if n > 0 {
      AxesRefsInAxes(stick, n - 1, digital);
      var a, b := AxesRefs(stick, n - 1, digital), AxisRefs(stick, n - 1, digital);
      assert AxesRefs(stick, n, digital) == a + b;
      forall k | 0 <= k < |a + b|
        ensures InAxesAndRows((a + b)[k]) && (a + b)[k].codeType != CodeTypeButton
      {
        if k >= |a| {
          assert (a + b)[k] == b[k - |a|];
        }
      }
    }
  }

  /**
   * With the loops capped, every code win_init_input adds names an opened
   * stick below MaxJoysticks, reads inside its joystick_state row, and an
   * axis code reads one of the eight axes.
   */
  lemma {:induction false} JoyRefsInBounds(pads: seq<Pad>, digital: nat -> bool)
    ensures forall k :: 0 <= k < |JoyRefs(pads, digital)| ==> InAxesAndRows(JoyRefs(pads, digital)[k])
  {
    if |pads| > 0 {
      var s := |pads| - 1;
      JoyRefsInBounds(pads[..s], digital);
      if s < MaxJoysticks {
        var axes, buttons := Min(pads[s].axes, MaxAxes), Min(pads[s].buttons, MaxButtons);
        var rest, a, b := JoyRefs(pads[..s], digital), AxesRefs(s, axes, digital), ButtonRefs(s, buttons);
        AxesRefsInAxes(s, axes, digital);
        assert JoyRefs(pads, digital) == rest + a + b;
        forall k | 0 <= k < |rest + a + b|
          ensures InAxesAndRows((rest + a + b)[k])
        {
          if k < |rest| {
            assert (rest + a + b)[k] == rest[k];
          } else if k < |rest| + |a| {
            assert (rest + a + b)[k] == a[k - |rest|];
          } else {
            assert (rest + a + b)[k] == b[k - |rest| - |a|];
          }
        }
      } else {
        assert JoyRefs(pads, digital) == JoyRefs(pads[..s], digital);
      }
    }
  }

  /**
   * As written, a pad with nine axes gets a digital axis code at index 8,
   * which reads the first button of its row (AxisPastAxesReadsButton), and
   * the flat digital index for its axis 8 is that of the next stick's
   * axis 0. The capped loops do not build it.
   */
  lemma NinthAxisFinding(digital: nat -> bool)
    ensures JoyRef(0, CodeTypeAxisPos, 8) in AsWrittenJoyRefs([Pad(9, 0)], digital)
    ensures |AxisRefs(0, 8, digital)| == |AxisRefs(1, 0, digital)|
    ensures JoyRef(0, CodeTypeAxisPos, 8) !in JoyRefs([Pad(9, 0)], digital)
  {
    var one := [Pad(9, 0)];
    assert one[..0] == [];
    var last := AxisRefs(0, 8, digital);
    assert last[|last| - 1] == JoyRef(0, CodeTypeAxisPos, 8);
    assert AsWrittenJoyRefs(one, digital) == AxesRefs(0, 8, digital) + last;
    JoyRefsInBounds(one, digital);
  }

  /**
   * As written, a ninth pad gets a button code for joystick_state[8], past
   * the table. The capped loops do not build it.
   */
  lemma NinthPadFinding(digital: nat -> bool)
    ensures var pads := seq(9, _ => Pad(0, 1));
      JoyRef(8, CodeTypeButton, 0) in AsWrittenJoyRefs(pads, digital) &&
      !ValidFields(CodeTypeButton, 8, 0) &&
      JoyRef(8, CodeTypeButton, 0) !in JoyRefs(pads, digital)
  {
    var pads := seq(9, _ => Pad(0, 1));
    assert pads[8] == Pad(0, 1);
    assert AsWrittenJoyRefs(pads, digital) == AsWrittenJoyRefs(pads[..8], digital) + [] + ButtonRefs(8, 1);
    assert ButtonRefs(8, 1)[0] == JoyRef(8, CodeTypeButton, 0);
    JoyRefsInBounds(pads, digital);
  }

  // ---------------------------------------------------------------- translation table

  /** One row of joy_trans_table: an os code and the standard input code it stands for. */
  datatype TransEntry = TransEntry(code: OsCode, standard: int)

  /** The index of the first row for the code, or the table size when there is none. */
  function FirstMatch(table: seq<TransEntry>, c: OsCode): (k: nat)
    ensures k <= |table|
    ensures k < |table| ==> table[k].code == c
    ensures forall j :: 0 <= j < k ==> table[j].code != c
  {
    if |table| == 0 then 0
    else if table[0].code == c then 0
    else 1 + FirstMatch(table[1..], c)
  }

  /** The input code recorded for a joystick code: the table's, if it has a row for it, else the caller's. */
  function Translated(table: seq<TransEntry>, c: OsCode, standard: int): int {
    var k := FirstMatch(table, c);
    if k < |table| then table[k].standard else standard
  }

  predicate DistinctCodes(table: seq<TransEntry>) {
    forall i, j :: 0 <= i < j < |table| ==> table[i].code != table[j].code
  }

  /** In a table without repeated codes, a code's row gives its input code; a code without a row keeps the caller's. */
  lemma TranslationFound(table: seq<TransEntry>, c: OsCode, standard: int)
    requires DistinctCodes(table)
    ensures forall k :: 0 <= k < |table| && table[k].code == c ==> Translated(table, c, standard) == table[k].standard
    ensures (forall k :: 0 <= k < |table| ==> table[k].code != c) ==> Translated(table, c, standard) == standard
  {
  }
}
