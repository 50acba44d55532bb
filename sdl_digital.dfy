/**
 * The "digital" option of the SDL input layer (parse_digital in
 * src/osd/sdl/input.c): which joystick axes are treated as digital. The option
 * is "none", "all", or comma-separated tokens j<N> (every axis of joystick N)
 * and j<N>a<M>a<M'>... (single axes). This module states what the parser
 * reads (Joys, Axes) and what the table becomes (DigitalTable); the method
 * walking the string in place is SdlInput.InputState.ParseDigital.
 */
module SdlDigital {
  import opened Wrappers
  import opened SdlCodes

  /** joystick_digital[MAX_JOYSTICKS][MAX_AXES], laid out row by row. */
  const TableSize := 64

  // ---------------------------------------------------------------- characters and sscanf("%d")

  predicate IsDigit(c: char) {
    '0' <= c <= '9'
  }

  /** isspace in the C locale: space, tab, newline, vertical tab, form feed, carriage return. */
  predicate IsSpace(c: char) {
    c == ' ' || 9 <= c as int <= 13
  }

  /** tolower(c) == 'j' and tolower(c) == 'a'. */
  predicate IsJ(c: char) {
    c == 'j' || c == 'J'
  }

  predicate IsA(c: char) {
    c == 'a' || c == 'A'
  }

  /** The first position at or after i that is not a digit. */
  function SkipDigits(s: string, i: nat): (k: nat)
    requires i <= |s|
    ensures i <= k <= |s|
    ensures k == |s| || !IsDigit(s[k])
    decreases |s| - i
  {
    if i < |s| && IsDigit(s[i]) then SkipDigits(s, i + 1) else i
  }

  function SkipSpace(s: string, i: nat): (k: nat)
    requires i <= |s|
    ensures i <= k <= |s|
    ensures k == |s| || !IsSpace(s[k])
    decreases |s| - i
  {
    if i < |s| && IsSpace(s[i]) then SkipSpace(s, i + 1) else i
  }

  function DigitValue(c: char): int {
    c as int - '0' as int
  }

  /** The value of the decimal digits s[i..k]. */
  function DecimalValue(s: string, i: nat, k: nat): int
    requires i <= k <= |s|
    decreases k - i
  {
    if k == i then 0 else DecimalValue(s, i, k - 1) * 10 + DigitValue(s[k - 1])
  }

  /**
   * sscanf(&s[i], "%d", &n) == 1: leading white space, an optional sign, then
   * at least one digit; None when no number can be read.
   */
  function ScanInt(s: string, i: nat): Option<int>
    requires i <= |s|
  {
    var p := SkipSpace(s, i);
    if p + 1 < |s| && (s[p] == '-' || s[p] == '+') && IsDigit(s[p + 1]) then
      var v := DecimalValue(s, p + 1, SkipDigits(s, p + 1));
      Some(if s[p] == '-' then -v else v)
    else if p < |s| && IsDigit(s[p]) then
      Some(DecimalValue(s, p, SkipDigits(s, p)))
    else
      None
  }

  /** A run of digits has a value of at least 0. */
  lemma {:induction false} DigitRunNonNegative(s: string, i: nat, k: nat)
    requires i <= |s| && i <= k <= SkipDigits(s, i)
    ensures DecimalValue(s, i, k) >= 0
    decreases k - i
  {
    if k > i {
      DigitRunNonNegative(s, i, k - 1);
      SkipDigitsCovers(s, i, k - 1);
    }
  }

  /** Every position skipped over is a digit. */
  lemma {:induction false} SkipDigitsCovers(s: string, i: nat, j: nat)
    requires i <= |s| && i <= j < SkipDigits(s, i)
    ensures IsDigit(s[j])
    decreases j - i
  {
    if j > i {
      SkipDigitsCovers(s, i + 1, j);
    }
  }

  /** A number that starts right at i is read as that run of digits. */
  lemma ScanIntDigits(s: string, i: nat)
    requires i < |s| && IsDigit(s[i])
    ensures ScanInt(s, i) == Some(DecimalValue(s, i, SkipDigits(s, i)))
  {
    assert SkipSpace(s, i) == i;
  }

  /** A negative number can only be read when the text at i starts with white space or a minus sign. */
  lemma ScanIntNegative(s: string, i: nat)
    requires i <= |s| && ScanInt(s, i).Some? && ScanInt(s, i).value < 0
    ensures i < |s| && (IsSpace(s[i]) || s[i] == '-')
  {
    var p := SkipSpace(s, i);
    if p < |s| && IsDigit(s[p]) {
      DigitRunNonNegative(s, p, SkipDigits(s, p));
    } else {
      DigitRunNonNegative(s, p + 1, SkipDigits(s, p + 1));
    }
    if p > i {
      assert IsSpace(s[i]);
    }
  }

  // ---------------------------------------------------------------- what the parser reads

  /** One effect the parser asks for: every axis of a joystick, or one axis of it (numbers as written, 1-based joystick). */
  datatype Request = AllAxes(joy: int) | OneAxis(joy: int, axis: int)

  /** The requests in order, and whether the walk reached the end of the string (false: it stopped at "usage"). */
  datatype Parse = Parse(reqs: seq<Request>, complete: bool)

  function Prepend(r: Request, p: Parse): Parse {
    Parse([r] + p.reqs, p.complete)
  }

  /** The outer loop at position i: a j<N> token, then the end, a comma, or axes. */
  function Joys(s: string, i: nat): Parse
    requires i <= |s|
    decreases |s| - i, 1
  {
    if i == |s| then Parse([], true)
    else if !IsJ(s[i]) then Parse([], false)
    else match ScanInt(s, i + 1)
      case None => Parse([], false)
      case Some(n) =>
        var k := SkipDigits(s, i + 1);
        if k == |s| then Parse([AllAxes(n)], true)
        else if s[k] == ',' then Prepend(AllAxes(n), Joys(s, k + 1))
        else Axes(s, k, n)
  }

  /** The axis loop of joystick n at position i: a<M> tokens up to the end or a comma. */
  function Axes(s: string, i: nat, n: int): Parse
    requires i <= |s|
    decreases |s| - i, 0
  {
    if i == |s| then Parse([], true)
    else if s[i] == ',' then Joys(s, i + 1)
    else if !IsA(s[i]) then Parse([], false)
    else match ScanInt(s, i + 1)
      case None => Parse([], false)
      case Some(m) => Prepend(OneAxis(n, m), Axes(s, SkipDigits(s, i + 1), n))
  }

  /**
   * Every request names a joystick number of at least 0: a j followed by a
   * sign or white space may scan a negative number, but the cursor then rests
   * on a character that ends the walk at "usage" before any request.
   */
  lemma {:induction false} JoysNonNegative(s: string, i: nat)
    requires i <= |s|
    ensures forall r :: r in Joys(s, i).reqs ==> r.joy >= 0
    decreases |s| - i, 1
  {
    if i < |s| && IsJ(s[i]) && ScanInt(s, i + 1).Some? {
      var n := ScanInt(s, i + 1).value;
      var k := SkipDigits(s, i + 1);
      if n < 0 {
        ScanIntNegative(s, i + 1);
        JoysToAxes(s, i);
        assert Axes(s, k, n) == Parse([], false);
      } else if k == |s| {
        JoysAtEnd(s, i);
      } else if s[k] == ',' {
        JoysAtComma(s, i);
        JoysNonNegative(s, k + 1);
      } else {
        JoysToAxes(s, i);
        AxesNonNegative(s, k, n);
      }
    }
  }

  lemma {:induction false} AxesNonNegative(s: string, i: nat, n: int)
    requires i <= |s| && n >= 0
    ensures forall r :: r in Axes(s, i, n).reqs ==> r.joy >= 0
    decreases |s| - i, 0
  {
    if i < |s| {
      if s[i] == ',' {
        JoysNonNegative(s, i + 1);
      } else if IsA(s[i]) && ScanInt(s, i + 1).Some? {
        AxesNonNegative(s, SkipDigits(s, i + 1), n);
      }
    }
  }

  // ---------------------------------------------------------------- what the table becomes

  /** The joystick guard of both kinds of token: joynum != 0 && joynum - 1 < MAX_JOYSTICKS. */
  predicate JoyAccepted(n: int) {
    n != 0 && n - 1 < MaxJoysticks
  }

  /** The axis guard as the source writes it: no lower bound on the axis. */
  predicate AsWrittenAxisAccepted(n: int, m: int) {
    JoyAccepted(n) && m < MaxAxes
  }

  /** The axis guard with the lower bound the table needs. */
  predicate AxisAccepted(n: int, m: int) {
    AsWrittenAxisAccepted(n, m) && 0 <= m
  }

  /** The flat offset of joystick_digital[n - 1][m] from the start of the table. */
  function FlatIndex(n: int, m: int): int {
    (n - 1) * MaxAxes + m
  }

  /** memset(&joystick_digital[n - 1], 1, ...): the row of joystick n set to 1. */
  function SetRow(t: seq<bool>, n: int): (r: seq<bool>)
    requires |t| == TableSize && 1 <= n <= MaxJoysticks
    ensures |r| == TableSize
    ensures forall i :: 0 <= i < TableSize ==> r[i] == (t[i] || (n - 1) * MaxAxes <= i < n * MaxAxes)
  {
    seq(TableSize, i requires 0 <= i < TableSize => t[i] || (n - 1) * MaxAxes <= i < n * MaxAxes)
  }

  /**
   * The effect of one request. A joystick number that passes JoyAccepted
   * and is below 1 would have to be negative, which no parse produces
   * (JoysNonNegative); such a request is taken to name no row.
   */
  function Apply(t: seq<bool>, r: Request): (u: seq<bool>)
    requires |t| == TableSize
    ensures |u| == TableSize
  {
    match r
    case AllAxes(n) => if JoyAccepted(n) && n >= 1 then SetRow(t, n) else t
    case OneAxis(n, m) => if AxisAccepted(n, m) && n >= 1 then t[FlatIndex(n, m) := true] else t
  }

  function ApplyAll(t: seq<bool>, reqs: seq<Request>): (u: seq<bool>)
    requires |t| == TableSize
    ensures |u| == TableSize
    decreases |reqs|
  {
    if |reqs| == 0 then t else ApplyAll(Apply(t, reqs[0]), reqs[1..])
  }

  function Filled(v: bool): (t: seq<bool>)
    ensures |t| == TableSize && forall i :: 0 <= i < TableSize ==> t[i] == v
  {
    seq(TableSize, _ => v)
  }

  /**
   * The table after parse_digital: cleared by "none", all set by "all",
   * otherwise the old table with every request applied in order, including
   * those made before a malformed token (the "reverting to all" message
   * notwithstanding, nothing is reverted).
   */
  function DigitalTable(s: string, t: seq<bool>): (u: seq<bool>)
    requires |t| == TableSize
    ensures |u| == TableSize
  {
    if s == "none" then Filled(false)
    else if s == "all" then Filled(true)
    else ApplyAll(t, Joys(s, 0).reqs)
  }

  /** Applying a request list is applying its head, then its tail. */
  lemma ApplyAllCons(t: seq<bool>, r: Request, rest: seq<Request>)
    requires |t| == TableSize
    ensures ApplyAll(t, [r] + rest) == ApplyAll(Apply(t, r), rest)
  {
    assert ([r] + rest)[1..] == rest;
  }

  /** A j<N> token followed by the end or a comma asks for all of joystick N, then the walk goes on after the comma. */
  lemma JoysBareStep(s: string, i: nat)
    requires i < |s| && IsJ(s[i]) && ScanInt(s, i + 1).Some?
    requires var k := SkipDigits(s, i + 1); k == |s| || s[k] == ','
    ensures var k := SkipDigits(s, i + 1);
      var next := if k == |s| then k else k + 1;
      Joys(s, i).reqs == [AllAxes(ScanInt(s, i + 1).value)] + Joys(s, next).reqs &&
      ScanInt(s, i + 1).value >= 0
  {
    if ScanInt(s, i + 1).value < 0 {
      ScanIntNegative(s, i + 1);
    }
    if SkipDigits(s, i + 1) == |s| {
      JoysAtEnd(s, i);
      assert Joys(s, |s|).reqs == [];
    } else {
      JoysAtComma(s, i);
    }
  }

  lemma JoysAtEnd(s: string, i: nat)
    requires i < |s| && IsJ(s[i]) && ScanInt(s, i + 1).Some? && SkipDigits(s, i + 1) == |s|
    ensures Joys(s, i) == Parse([AllAxes(ScanInt(s, i + 1).value)], true)
  {
  }

  lemma JoysAtComma(s: string, i: nat)
    requires i < |s| && IsJ(s[i]) && ScanInt(s, i + 1).Some?
    requires var k := SkipDigits(s, i + 1); k < |s| && s[k] == ','
    ensures Joys(s, i) == Prepend(AllAxes(ScanInt(s, i + 1).value), Joys(s, SkipDigits(s, i + 1) + 1))
  {
  }

  /** A j<N> token followed by anything else hands over to the axis loop; a negative N only reaches a character that ends it. */
  lemma JoysToAxes(s: string, i: nat)
    requires i < |s| && IsJ(s[i]) && ScanInt(s, i + 1).Some?
    requires var k := SkipDigits(s, i + 1); k < |s| && s[k] != ','
    ensures var k := SkipDigits(s, i + 1);
      var n := ScanInt(s, i + 1).value;
      Joys(s, i) == Axes(s, k, n) && i < k &&
      (n >= 0 || (!IsA(s[k]) && s[k] != ','))
  {
    if ScanInt(s, i + 1).value < 0 {
      ScanIntNegative(s, i + 1);
    }
  }

  /** An a<M> token asks for axis M of joystick n, then the axis loop goes on after its digits. */
  lemma AxesUnfold(s: string, i: nat, n: int)
    requires i < |s| && IsA(s[i]) && ScanInt(s, i + 1).Some?
    ensures Axes(s, i, n) == Prepend(OneAxis(n, ScanInt(s, i + 1).value), Axes(s, SkipDigits(s, i + 1), n))
  {
  }

  /** Anything but a comma or a well-formed a<M> token ends the axis loop at "usage". */
  lemma AxesStops(s: string, i: nat, n: int)
    requires i < |s| && s[i] != ',' && (!IsA(s[i]) || ScanInt(s, i + 1).None?)
    ensures Axes(s, i, n) == Parse([], false)
  {
  }

  /** A single digit at j, not followed by another, reads as its value. */
  lemma ScanOneDigit(s: string, j: nat)
    requires j < |s| && IsDigit(s[j]) && (j + 1 == |s| || !IsDigit(s[j + 1]))
    ensures SkipDigits(s, j) == j + 1
    ensures ScanInt(s, j) == Some(s[j] as int - '0' as int)
  {
    ScanIntDigits(s, j);
  }

  /** A minus sign and a single digit at j read as the negated digit; the digit skip stays on the sign. */
  lemma ScanMinusDigit(s: string, j: nat)
    requires j + 1 < |s| && s[j] == '-' && IsDigit(s[j + 1]) && (j + 2 == |s| || !IsDigit(s[j + 2]))
    ensures SkipDigits(s, j) == j
    ensures ScanInt(s, j) == Some(-(s[j + 1] as int - '0' as int))
  {
    assert SkipSpace(s, j) == j;
    assert SkipDigits(s, j + 1) == j + 2;
    assert DecimalValue(s, j + 1, j + 2) == DigitValue(s[j + 1]);
  }

  // ---------------------------------------------------------------- properties

  /** A request only ever sets entries, and only entries of the joystick it names, at the axis it names. */
  predicate Covers(r: Request, i: int) {
    match r
    case AllAxes(n) => JoyAccepted(n) && n >= 1 && (n - 1) * MaxAxes <= i < n * MaxAxes
    case OneAxis(n, m) => AxisAccepted(n, m) && n >= 1 && i == FlatIndex(n, m)
  }

  lemma {:induction false} ApplyAllOnlySets(t: seq<bool>, reqs: seq<Request>, i: int)
    requires |t| == TableSize && 0 <= i < TableSize
    ensures ApplyAll(t, reqs)[i] == (t[i] || exists r :: r in reqs && Covers(r, i))
    decreases |reqs|
  {
    if |reqs| > 0 {
      var u := Apply(t, reqs[0]);
      assert forall r :: r in reqs[1..] ==> r in reqs;
      ApplyAllOnlySets(u, reqs[1..], i);
      assert u[i] == (t[i] || Covers(reqs[0], i));
      assert forall r :: r in reqs <==> r == reqs[0] || r in reqs[1..];
    }
  }

  /** With the corrected guard a single-axis request stays inside its joystick's row. */
  lemma AxisStaysInRow(n: int, m: int)
    requires n >= 0 && AxisAccepted(n, m)
    ensures 0 <= FlatIndex(n, m) < TableSize
    ensures FlatIndex(n, m) / MaxAxes == n - 1 && FlatIndex(n, m) % MaxAxes == m
  {
  }

  /**
   * The source's guard lets a negative axis through: "j2a-1" asks for axis -1
   * of joystick 2, which the guard accepts and which lands on joystick 1's
   * axis 7; "j1a-1" lands one byte before the table. Both then stop at
   * "usage". The corrected guard rejects both.
   */
  lemma AxisGuardFinding()
    ensures Joys("j2a-1", 0) == Parse([OneAxis(2, -1)], false)
    ensures AsWrittenAxisAccepted(2, -1) && FlatIndex(2, -1) == FlatIndex(1, 7)
    ensures Joys("j1a-1", 0) == Parse([OneAxis(1, -1)], false)
    ensures AsWrittenAxisAccepted(1, -1) && FlatIndex(1, -1) == -1
    ensures !AxisAccepted(2, -1) && !AxisAccepted(1, -1)
  {
    NegativeAxisToken("j2a-1");
    NegativeAxisToken("j1a-1");
  }

  /** j<d>a-<e> with single digits d and e: one request for axis -e, then "usage". */
  lemma NegativeAxisToken(s: string)
    requires |s| == 5 && s[0] == 'j' && IsDigit(s[1]) && s[2] == 'a' && s[3] == '-' && IsDigit(s[4])
    ensures Joys(s, 0) == Parse([OneAxis(s[1] as int - '0' as int, -(s[4] as int - '0' as int))], false)
  {
    var n := s[1] as int - '0' as int;
    ScanOneDigit(s, 1);
    JoysToAxes(s, 0);
    ScanMinusDigit(s, 3);
    AxesUnfold(s, 2, n);
    assert Axes(s, 3, n) == Parse([], false);
  }

  /** "j1a5a6,j2": axes 5 and 6 of joystick 1 and every axis of joystick 2. */
  lemma DigitalExample()
    ensures Joys("j1a5a6,j2", 0) == Parse([OneAxis(1, 5), OneAxis(1, 6), AllAxes(2)], true)
  {
    TwoAxesThenJoystick("j1a5a6,j2");
  }

  /** j<d>a<e>a<f>,j<g> with single digits: axes e and f of joystick d, then all of joystick g. */
  lemma TwoAxesThenJoystick(s: string)
    requires |s| == 9 && s[0] == 'j' && s[2] == 'a' && s[4] == 'a' && s[6] == ',' && s[7] == 'j'
    requires IsDigit(s[1]) && IsDigit(s[3]) && IsDigit(s[5]) && IsDigit(s[8])
    ensures var d := (c: char) => c as int - '0' as int;
      Joys(s, 0) == Parse([OneAxis(d(s[1]), d(s[3])), OneAxis(d(s[1]), d(s[5])), AllAxes(d(s[8]))], true)
  {
    var n := s[1] as int - '0' as int;
    ScanOneDigit(s, 1);
    JoysToAxes(s, 0);
    ScanOneDigit(s, 3);
    AxesUnfold(s, 2, n);
    ScanOneDigit(s, 5);
    AxesUnfold(s, 4, n);
    assert Axes(s, 6, n) == Joys(s, 7);
    ScanOneDigit(s, 8);
    JoysAtEnd(s, 7);
  }

  /** "j1,x": the malformed second token stops the walk, yet joystick 1 stays set. */
  lemma UsageKeepsEarlierRequests(t: seq<bool>)
    requires |t| == TableSize
    ensures Joys("j1,x", 0) == Parse([AllAxes(1)], false)
    ensures forall i :: 0 <= i < MaxAxes ==> DigitalTable("j1,x", t)[i]
  {
    var s := "j1,x";
    ScanOneDigit(s, 1);
    JoysAtComma(s, 0);
    assert Joys(s, 3) == Parse([], false);
    ApplyAllCons(t, AllAxes(1), []);
  }

  /** "j9" and "j0" name no joystick: the table is left as it was. */
  lemma OutOfRangeJoystickIgnored(t: seq<bool>)
    requires |t| == TableSize
    ensures DigitalTable("j9", t) == t && DigitalTable("j0", t) == t
  {
    ScanOneDigit("j9", 1);
    JoysAtEnd("j9", 0);
    ScanOneDigit("j0", 1);
    JoysAtEnd("j0", 0);
    ApplyAllCons(t, AllAxes(9), []);
    ApplyAllCons(t, AllAxes(0), []);
  }
}
