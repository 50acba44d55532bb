/**
 * The mutable state of the SDL input layer (src/osd/sdl/input.c) and the
 * operations on it: the option parsers that fill joystick_digital and
 * analog_type, the steadykey debouncer, the key, joystick and mouse readers
 * behind osd_get_code_value, and the code list that add_joylist_entry grows.
 */
module SdlInput {
  import opened SdlCodes
  import opened SdlDigital
  import opened SdlKeyboard
  import opened SdlJoystick

  /** SELECT_TYPE_KEYBOARD, SELECT_TYPE_MOUSE, SELECT_TYPE_JOYSTICK. */
  const SelectKeyboard := 0
  const SelectMouse := 1
  const SelectJoystick := 2

  /** ANALOG_TYPE_COUNT in a build with the MESS mouse type. */
  const AnalogTypeCount := 7

  /** The capacity of codelist: MAX_KEYS + MAX_JOY. */
  const CodeCapacity := 512

  /** The analog input source an option names; an unknown name falls back to the keyboard. */
  function AnalogSelect(s: string): (r: int)
    ensures r == SelectMouse <==> s == "mouse"
    ensures r == SelectJoystick <==> s == "joystick"
    ensures r == SelectKeyboard <==> s != "mouse" && s != "joystick"
  {
    if s == "keyboard" then SelectKeyboard
    else if s == "mouse" then SelectMouse
    else if s == "joystick" then SelectJoystick
    else SelectKeyboard
  }

  /** One entry of codelist: the name, the os code and the standard input code. */
  datatype CodeInfo = CodeInfo(name: string, oscode: OsCode, inputcode: int)

  /** The settings read from the options at start-up. */
  datatype Settings = Settings(steadykey: bool, useJoystick: bool, deadzone: real, useMouse: bool)

  predicate IsMouseType(t: int) {
    t == CodeTypeMouseAxis || t == CodeTypeMouseNeg || t == CodeTypeMousePos
  }

  class InputState {
    /** joystick_digital, row by row. */
    const joystickDigital: array<bool>
    const analogType: array<int>
    const keyboardState: array<int>
    const oldkey: array<int>
    const currkey: array<int>
    var settings: Settings
    /** win_trying_to_quit, set by the window code. */
    var tryingToQuit: bool
    var mouseActive: bool
    /** The static dummy_state of is_key_pressed, toggled on each faked escape read. */
    var escapeToggle: int
    /** joystick_state and mouse_state, filled by the event loop. */
    var joys: seq<JoyState>
    var mice: seq<MouseState>
    /** codelist[0 .. total_codes). */
    var codes: seq<CodeInfo>

    ghost predicate Valid()
      reads this
    {
      joystickDigital.Length == TableSize &&
      analogType.Length == AnalogTypeCount &&
      keyboardState.Length == KeyCount && oldkey.Length == KeyCount && currkey.Length == KeyCount &&
      keyboardState != oldkey && keyboardState != currkey && oldkey != currkey &&
      analogType != keyboardState && analogType != oldkey && analogType != currkey &&
      0 <= escapeToggle <= 1 &&
      ValidJoys(joys) && ValidMice(mice) &&
      |codes| <= CodeCapacity
    }

    /** Everything but the escape toggle and the mouse activation is as it was. */
    twostate predicate KeepsState()
      reads this
    {
      settings == old(settings) && tryingToQuit == old(tryingToQuit) &&
      joys == old(joys) && mice == old(mice) && codes == old(codes)
    }

    constructor(s: Settings)
      ensures Valid() && fresh(joystickDigital) && fresh(analogType)
      ensures fresh(keyboardState) && fresh(oldkey) && fresh(currkey)
      ensures settings == s && !tryingToQuit && !mouseActive && escapeToggle == 1 && codes == []
      ensures forall i :: 0 <= i < TableSize ==> !joystickDigital[i]
      ensures forall i :: 0 <= i < KeyCount ==> keyboardState[i] == 0 && oldkey[i] == 0 && currkey[i] == 0
      ensures forall k :: 0 <= k < AnalogTypeCount ==> analogType[k] == SelectKeyboard
      ensures forall n, i :: 0 <= n < MaxJoysticks && 0 <= i < MaxAxes ==> joys[n].axes[i] == 0
      ensures forall n, i :: 0 <= n < MaxJoysticks && 0 <= i < MaxButtons ==> joys[n].buttons[i] == 0 && mice[n].buttons[i] == 0
      ensures forall n :: 0 <= n < MaxJoysticks ==> mice[n].lX == 0 && mice[n].lY == 0
    {
      joystickDigital := new bool[TableSize](_ => false);
      analogType := new int[AnalogTypeCount](_ => SelectKeyboard);
      keyboardState := new int[KeyCount](_ => 0);
      oldkey := new int[KeyCount](_ => 0);
      currkey := new int[KeyCount](_ => 0);
      settings := s;
      tryingToQuit := false;
      mouseActive := false;
      escapeToggle := 1;
      joys := seq(MaxJoysticks, _ => JoyState(seq(MaxAxes, _ => 0), seq(MaxButtons, _ => 0)));
      mice := seq(MaxJoysticks, _ => MouseState(0, 0, seq(MaxButtons, _ => 0)));
      codes := [];
    }

    // ------------------------------------------------------------ options

    /** parse_analog_select: one entry of analog_type takes the source the option names. */
    method ParseAnalogSelect(kind: int, option: string)
      requires Valid() && 0 <= kind < AnalogTypeCount
      modifies analogType
      ensures analogType[kind] == AnalogSelect(option)
      ensures forall k :: 0 <= k < AnalogTypeCount && k != kind ==> analogType[k] == old(analogType[k])
    {
      if option == "keyboard" {
        analogType[kind] := SelectKeyboard;
      } else if option == "mouse" {
        analogType[kind] := SelectMouse;
      } else if option == "joystick" {
        analogType[kind] := SelectJoystick;
      } else {
        analogType[kind] := SelectKeyboard;
      }
    }

    /** parse_digital: the table becomes what DigitalTable says of the option and the old table. */
    method ParseDigital(option: string)
      requires Valid()
      modifies joystickDigital
      ensures joystickDigital[..] == DigitalTable(option, old(joystickDigital[..]))
    {
      if option == "none" {
        forall i | 0 <= i < TableSize {
          joystickDigital[i] := false;
        }
        assert joystickDigital[..] == Filled(false);
        return;
      }
      if option == "all" {
        forall i | 0 <= i < TableSize {
          joystickDigital[i] := true;
        }
        assert joystickDigital[..] == Filled(true);
        return;
      }
      ghost var final := ApplyAll(old(joystickDigital[..]), Joys(option, 0).reqs);
      var stemp := 0;
      while true
        invariant 0 <= stemp <= |option|
        invariant ApplyAll(joystickDigital[..], Joys(option, stemp).reqs) == final
        decreases |option| - stemp
      {
        if stemp == |option| {
          break;
        }
        if !IsJ(option[stemp]) {
          return;
        }
        var scanned := ScanInt(option, stemp + 1);
        if scanned.None? {
          return;
        }
        var joynum := scanned.value;
        var start := stemp;
        stemp := SkipDigitRun(option, stemp + 1);
        if stemp == |option| || option[stemp] == ',' {
          JoysBareStep(option, start);
          ghost var next := if stemp == |option| then stemp else stemp + 1;
          ApplyAllCons(joystickDigital[..], AllAxes(joynum), Joys(option, next).reqs);
          MarkJoystick(joynum);
          if stemp == |option| {
            break;
          }
          stemp := stemp + 1;
          continue;
        }
        JoysToAxes(option, start);
        var usage;
        stemp, usage := ParseAxes(option, stemp, joynum, final);
        if usage {
          return;
        }
      }
    }

    /** The axis loop of parse_digital for joystick joynum, from position i0 up to the end, a comma, or a malformed token. */
    method ParseAxes(option: string, i0: nat, joynum: int, ghost final: seq<bool>) returns (stemp: nat, usage: bool)
      requires Valid() && i0 < |option|
      requires joynum >= 0 || (!IsA(option[i0]) && option[i0] != ',')
      requires ApplyAll(joystickDigital[..], Axes(option, i0, joynum).reqs) == final
      modifies joystickDigital
      ensures usage ==> joystickDigital[..] == final
      ensures !usage ==> i0 < stemp <= |option|
      ensures !usage ==> ApplyAll(joystickDigital[..], Joys(option, stemp).reqs) == final
    {
      stemp := i0;
      while true
        invariant i0 <= stemp <= |option|
        invariant joynum >= 0 || (stemp == i0 && !IsA(option[i0]) && option[i0] != ',')
        invariant ApplyAll(joystickDigital[..], Axes(option, stemp, joynum).reqs) == final
        decreases |option| - stemp
      {
        if stemp == |option| {
          return stemp, false;
        }
        if option[stemp] == ',' {
          return stemp + 1, false;
        }
        if !IsA(option[stemp]) || ScanInt(option, stemp + 1).None? {
          AxesStops(option, stemp, joynum);
          return stemp, true;
        }
        stemp := AxisToken(option, stemp, joynum, final);
      }
    }

    /** One a<M> token: the axis is marked and the cursor moves past the digits. */
    method AxisToken(option: string, i: nat, joynum: int, ghost final: seq<bool>) returns (next: nat)
      requires Valid() && i < |option| && IsA(option[i]) && ScanInt(option, i + 1).Some? && joynum >= 0
      requires ApplyAll(joystickDigital[..], Axes(option, i, joynum).reqs) == final
      modifies joystickDigital
      ensures i < next <= |option|
      ensures ApplyAll(joystickDigital[..], Axes(option, next, joynum).reqs) == final
    {
      var axisnum := ScanInt(option, i + 1).value;
      AxesUnfold(option, i, joynum);
      next := SkipDigitRun(option, i + 1);
      ApplyAllCons(joystickDigital[..], OneAxis(joynum, axisnum), Axes(option, next, joynum).reqs);
      MarkAxis(joynum, axisnum);
    }

    /** A bare j<N> token: when N passes the joystick guard, the row of joystick N is set (a memset). */
    method MarkJoystick(joynum: int)
      requires Valid() && joynum >= 0
      modifies joystickDigital
      ensures joystickDigital[..] == Apply(old(joystickDigital[..]), AllAxes(joynum))
    {
      if JoyAccepted(joynum) {
        forall i | (joynum - 1) * MaxAxes <= i < joynum * MaxAxes {
          joystickDigital[i] := true;
        }
      }
    }

    /** An a<M> token of joystick N: when the pair passes the axis guard, that one entry is set. */
    method MarkAxis(joynum: int, axisnum: int)
      requires Valid() && joynum >= 0
      modifies joystickDigital
      ensures joystickDigital[..] == Apply(old(joystickDigital[..]), OneAxis(joynum, axisnum))
    {
      if AxisAccepted(joynum, axisnum) {
        joystickDigital[FlatIndex(joynum, axisnum)] := true;
      }
    }

    // ------------------------------------------------------------ keyboard

    /** updatekeyboard: currkey follows the debouncer and oldkey becomes the live state. */
    method UpdateKeyboard()
      requires Valid()
      modifies oldkey, currkey
      ensures currkey[..] == NextCurr(keyboardState[..], old(oldkey[..]), old(currkey[..]))
      ensures oldkey[..] == keyboardState[..]
    {
      var changed := false;
      var i := 0;
      while i < KeyCount
        invariant 0 <= i <= KeyCount
        invariant changed <==> exists j :: 0 <= j < i && keyboardState[j] != oldkey[j]
        invariant forall j :: 0 <= j < i ==> currkey[j] == MarkMissed(keyboardState[..], oldkey[..], old(currkey[..]))[j]
        invariant forall j :: i <= j < KeyCount ==> currkey[j] == old(currkey[j])
        invariant oldkey[..] == old(oldkey[..])
      {
        if keyboardState[i] != oldkey[i] {
          changed := true;
          if keyboardState[i] == 0 && currkey[i] == 0 {
            currkey[i] := -1;
          }
        }
        i := i + 1;
      }
      assert currkey[..] == MarkMissed(keyboardState[..], oldkey[..], old(currkey[..]));
      if !changed {
        forall j | 0 <= j < KeyCount {
          currkey[j] := keyboardState[j];
        }
      }
      forall j | 0 <= j < KeyCount {
        oldkey[j] := keyboardState[j];
      }
    }

    /**
     * is_key_pressed: the escape key while the window is trying to quit reads
     * alternately 0 and 1; any other key reads the debounced state under
     * steadykey, else the live one.
     */
    method IsKeyPressed(code: OsCode) returns (r: int)
      requires Valid()
      modifies this
      ensures Valid() && KeepsState() && mouseActive == old(mouseActive)
      ensures SdlCode(code) == SdlkEscape && tryingToQuit ==> escapeToggle == 1 - old(escapeToggle) && r == escapeToggle
      ensures !(SdlCode(code) == SdlkEscape && tryingToQuit) ==>
        escapeToggle == old(escapeToggle) && r == KeyState(SdlCode(code), settings.steadykey, currkey[..], keyboardState[..])
    {
      var sdlk := SdlCode(code);
      if sdlk == SdlkEscape && tryingToQuit {
        escapeToggle := 1 - escapeToggle;
        return escapeToggle;
      }
      if settings.steadykey {
        r := currkey[sdlk];
      } else {
        r := keyboardState[sdlk];
      }
    }

    // ------------------------------------------------------------ joysticks and mice

    /** get_joycode_value: the code's value, and a mouse read activates the mouse when allowed. */
    method GetJoycodeValue(code: OsCode, hasMenu: bool) returns (r: int)
      requires Valid() && ValidJoycode(code)
      modifies this
      ensures Valid() && KeepsState() && escapeToggle == old(escapeToggle)
      ensures r == JoycodeValue(code, joys, mice, settings.useJoystick, settings.deadzone)
      ensures mouseActive == (old(mouseActive) || (IsMouseType(CodeType(code)) && settings.useMouse && !hasMenu))
    {
      var joyindex, codetype, joynum := JoyIndex(code), CodeType(code), JoyNum(code);
      if codetype == CodeTypeMouseButton {
        return mice[joynum].buttons[joyindex];
      } else if codetype == CodeTypeButton {
        return joys[joynum].buttons[joyindex];
      } else if codetype == CodeTypeAxisPos {
        var v := RawWord(joys[joynum], joyindex);
        return if v as real > AxisTop as real * settings.deadzone then 1 else 0;
      } else if codetype == CodeTypeAxisNeg {
        var v := RawWord(joys[joynum], joyindex);
        return if (v as real) < -(0 - AxisBottom) as real * settings.deadzone then 1 else 0;
      } else if codetype == CodeTypeJoyAxis {
        var v := RawWord(joys[joynum], joyindex);
        if !settings.useJoystick {
          return 0;
        }
        if v < AnalogValueMin {
          v := AnalogValueMin;
        }
        if v > AnalogValueMax {
          v := AnalogValueMax;
        }
        return v;
      } else if IsMouseType(codetype) {
        if !mouseActive && settings.useMouse && !hasMenu {
          mouseActive := true;
        }
        var retv := 0;
        if joyindex == 0 {
          retv := mice[joynum].lX * MouseScale;
        }
        if joyindex == 1 {
          retv := mice[joynum].lY * MouseScale;
        }
        if codetype == CodeTypeMouseAxis {
          return retv;
        } else if codetype == CodeTypeMousePos {
          return if retv > 0 then 1 else 0;
        } else {
          return if retv < 0 then 1 else 0;
        }
      }
      return 0;
    }

    /** osd_get_code_value: keyboard codes read the key state, joystick codes the device state. */
    method GetCodeValue(code: OsCode, hasMenu: bool) returns (r: int)
      requires Valid() && (IsJoystickCode(code) ==> ValidJoycode(code))
      modifies this
      ensures Valid() && KeepsState()
      ensures IsKeyboardCode(code) && SdlCode(code) == SdlkEscape && tryingToQuit ==>
        r == 1 - old(escapeToggle) && escapeToggle == r
      ensures IsKeyboardCode(code) && !(SdlCode(code) == SdlkEscape && tryingToQuit) ==>
        r == KeyState(SdlCode(code), settings.steadykey, currkey[..], keyboardState[..])
      ensures IsJoystickCode(code) ==> r == JoycodeValue(code, joys, mice, settings.useJoystick, settings.deadzone)
    {
      if IsKeyboardCode(code) {
        r := IsKeyPressed(code);
      } else {
        r := GetJoycodeValue(code, hasMenu);
      }
    }

    // ------------------------------------------------------------ code list

    /**
     * add_joylist_entry: when the name could be copied, one entry is appended
     * carrying the translation table's input code for the os code, or the
     * caller's when the table has none.
     */
    method AddJoylistEntry(name: string, code: OsCode, standard: int, copied: bool, table: seq<TransEntry>)
      requires Valid() && |codes| < CodeCapacity
      modifies this
      ensures Valid() && settings == old(settings) && tryingToQuit == old(tryingToQuit)
      ensures joys == old(joys) && mice == old(mice) && mouseActive == old(mouseActive) && escapeToggle == old(escapeToggle)
      ensures codes == old(codes) + (if copied then [CodeInfo(name, code, Translated(table, code, standard))] else [])
    {
      if copied {
        var entry := 0;
        while entry < |table| && table[entry].code != code
          invariant 0 <= entry <= |table|
          invariant forall j :: 0 <= j < entry ==> table[j].code != code
        {
          entry := entry + 1;
        }
        var inputcode := standard;
        if entry < |table| {
          inputcode := table[entry].standard;
        }
        codes := codes + [CodeInfo(name, code, inputcode)];
      }
    }
  }

  /** The digits of a number: the first position at or after i that is not a digit. */
  method SkipDigitRun(s: string, i: nat) returns (k: nat)
    requires i <= |s|
    ensures k == SkipDigits(s, i)
  {
    k := i;
    while k < |s| && IsDigit(s[k])
      invariant i <= k <= |s|
      invariant SkipDigits(s, k) == SkipDigits(s, i)
    {
      k := k + 1;
    }
  }
}
