/**
 * The keyboard side of the SDL input layer (src/osd/sdl/input.c): the
 * "steadykey" debouncer updatekeyboard, which holds back key changes until
 * the keyboard is stable for one event, and the state is_key_pressed reads.
 * The tables are sequences of key states (0 up, 1 down, -1 a release that
 * was reported before the press was seen).
 */
module SdlKeyboard {
  import opened SdlCodes

  /** MAX_KEYS as the source declares it: the size of currkey and oldkey. */
  const AsWrittenMaxKeys := 256
  /** The size the source gives keyboard_state. */
  const AsWrittenStateSize := 0x3ff
  /** One entry per SDLCODE value, in all three tables. */
  const KeyCount := 0x400

  /** SDLK_ESCAPE and SDLK_UP as SDL 1.2 numbers them. */
  const SdlkEscape := 27
  const SdlkUp := 273

  // ---------------------------------------------------------------- the table-size finding

  /** Whether is_key_pressed's read stays inside the table it reads, with the sizes as written. */
  predicate AsWrittenReadInBounds(sdlk: int, steady: bool) {
    if steady then sdlk < AsWrittenMaxKeys else sdlk < AsWrittenStateSize
  }

  /**
   * The default key table maps the up arrow to SDLK_UP, whose code is beyond
   * the 256 entries of currkey: with steadykey on, reading it runs past the
   * table (and updatekeyboard never debounces it). keyboard_state misses
   * the last SDLCODE value by one. With every table KeyCount entries long,
   * every code reads inside its table.
   */
  lemma KeyTableFinding()
    ensures SdlCode(KeyCode(SdlkUp as bv32, 0, 0)) == SdlkUp
    ensures !AsWrittenReadInBounds(SdlkUp, true)
    ensures SdlCode(KeyCode(0x3ff, 0, 0)) == 0x3ff && !AsWrittenReadInBounds(0x3ff, false)
    ensures forall c: OsCode :: SdlCode(c) < KeyCount
  {
    KeyCodeRoundTrip(SdlkUp as bv32, 0, 0);
    KeyCodeRoundTrip(0x3ff, 0, 0);
  }

  // ---------------------------------------------------------------- debouncing

  predicate SameSize(ks: seq<int>, prev: seq<int>, curr: seq<int>) {
    |ks| == |prev| == |curr| == KeyCount
  }

  /** Some key differs from the state seen at the previous update. */
  predicate Changed(ks: seq<int>, prev: seq<int>)
    requires |ks| == |prev|
  {
    exists i :: 0 <= i < |ks| && ks[i] != prev[i]
  }

  /** A key released since the last update whose press was never reported is reported as -1 (non-zero: pressed). */
  function MarkMissed(ks: seq<int>, prev: seq<int>, curr: seq<int>): (r: seq<int>)
    requires SameSize(ks, prev, curr)
    ensures |r| == KeyCount
  {
    seq(KeyCount, i requires 0 <= i < KeyCount =>
      if ks[i] != prev[i] && ks[i] == 0 && curr[i] == 0 then -1 else curr[i])
  }

  /** currkey after updatekeyboard: the live state when nothing changed, otherwise the old one with missed presses marked. */
  function NextCurr(ks: seq<int>, prev: seq<int>, curr: seq<int>): (r: seq<int>)
    requires SameSize(ks, prev, curr)
    ensures |r| == KeyCount
  {
    if Changed(ks, prev) then MarkMissed(ks, prev, curr) else ks
  }

  // ---------------------------------------------------------------- debouncing with the sizes as written

  /** Some key below AsWrittenMaxKeys differs from oldkey: the only keys the source's loop compares. */
  predicate AsWrittenChanged(ks: seq<int>, prev: seq<int>)
    requires |ks| == KeyCount && |prev| == AsWrittenMaxKeys
  {
    exists i :: 0 <= i < AsWrittenMaxKeys && ks[i] != prev[i]
  }

  /**
   * currkey after updatekeyboard with currkey and oldkey AsWrittenMaxKeys
   * entries long: only those keys are compared, marked and copied.
   */
  function AsWrittenNextCurr(ks: seq<int>, prev: seq<int>, curr: seq<int>): (r: seq<int>)
    requires |ks| == KeyCount && |prev| == |curr| == AsWrittenMaxKeys
    ensures |r| == AsWrittenMaxKeys
  {
    if AsWrittenChanged(ks, prev) then
      seq(AsWrittenMaxKeys, i requires 0 <= i < AsWrittenMaxKeys =>
        if ks[i] != prev[i] && ks[i] == 0 && curr[i] == 0 then -1 else curr[i])
    else ks[..AsWrittenMaxKeys]
  }

  /** While no key from AsWrittenMaxKeys up changes, the two debouncers report the same state for the keys below it. */
  lemma AsWrittenAgreesBelow(ks: seq<int>, prev: seq<int>, curr: seq<int>)
    requires SameSize(ks, prev, curr)
    requires forall i :: AsWrittenMaxKeys <= i < KeyCount ==> ks[i] == prev[i]
    ensures AsWrittenNextCurr(ks, prev[..AsWrittenMaxKeys], curr[..AsWrittenMaxKeys]) == NextCurr(ks, prev, curr)[..AsWrittenMaxKeys]
  {
    if Changed(ks, prev) {
      var i :| 0 <= i < |ks| && ks[i] != prev[i];
      assert prev[..AsWrittenMaxKeys][i] == prev[i];
    }
  }

  /** Live states with the given keys down and every other key up. */
  function KeysDown(down: set<int>): (ks: seq<int>)
    ensures |ks| == KeyCount
    ensures forall i :: 0 <= i < KeyCount ==> ks[i] == if i in down then 1 else 0
  {
    seq(KeyCount, i requires 0 <= i < KeyCount => if i in down then 1 else 0)
  }

  /**
   * 'a' (97) goes down at one update, and at the next SDLK_UP goes down
   * while 'a' is held. The source compares keys below 256 only, sees no
   * change and reports 'a' pressed; with every key compared, the change at
   * SDLK_UP holds 'a' back for one more update.
   */
  lemma SteadyKeyFinding()
    ensures var zeros := KeysDown({});
            var first := KeysDown({97});
            var second := KeysDown({97, SdlkUp});
            && AsWrittenNextCurr(second, first[..AsWrittenMaxKeys],
                 AsWrittenNextCurr(first, zeros[..AsWrittenMaxKeys], zeros[..AsWrittenMaxKeys]))[97] == 1
            && NextCurr(second, first, NextCurr(first, zeros, zeros))[97] == 0
  {
    var zeros := KeysDown({});
    var first := KeysDown({97});
    var second := KeysDown({97, SdlkUp});
    assert first[97] != zeros[..AsWrittenMaxKeys][97];
    assert Changed(first, zeros) by { assert first[97] != zeros[97]; }
    var c1 := AsWrittenNextCurr(first, zeros[..AsWrittenMaxKeys], zeros[..AsWrittenMaxKeys]);
    assert c1[97] == 0;
    assert !AsWrittenChanged(second, first[..AsWrittenMaxKeys]) by {
      forall i | 0 <= i < AsWrittenMaxKeys
        ensures second[i] == first[..AsWrittenMaxKeys][i]
      {
      }
    }
    assert Changed(second, first) by { assert second[SdlkUp] != first[SdlkUp]; }
  }

  /** The value is_key_pressed reports for an SDL key. */
  function KeyState(sdlk: int, steady: bool, curr: seq<int>, ks: seq<int>): int
    requires 0 <= sdlk < KeyCount && |curr| == |ks| == KeyCount
  {
    if steady then curr[sdlk] else ks[sdlk]
  }

  predicate KeyValues(t: seq<int>) {
    forall i :: 0 <= i < |t| ==> -1 <= t[i] <= 1
  }

  /** Two updates with the same live state leave the reported state equal to it, whatever came before. */
  lemma SettlesAfterTwoUpdates(ks: seq<int>, prev: seq<int>, curr: seq<int>)
    requires SameSize(ks, prev, curr)
    ensures NextCurr(ks, ks, NextCurr(ks, prev, curr)) == ks
  {
    assert !Changed(ks, ks);
  }

  /**
   * A key pressed and released while other keys were changing, and so never
   * reported, is reported as pressed by the update that sees it released and
   * as released by the next update if nothing else changes.
   */
  lemma MissedPressShownForOneFrame(ks: seq<int>, prev: seq<int>, curr: seq<int>, i: int)
    requires SameSize(ks, prev, curr) && 0 <= i < KeyCount
    requires prev[i] != 0 && ks[i] == 0 && curr[i] == 0
    ensures NextCurr(ks, prev, curr)[i] == -1
    ensures NextCurr(ks, ks, NextCurr(ks, prev, curr))[i] == 0
  {
    assert Changed(ks, prev) by {
      assert ks[i] != prev[i];
    }
    assert !Changed(ks, ks);
  }

  /**
   * While keys are changing nothing new is reported as pressed except a
   * release whose press was missed, and the reported state of a key that did
   * not change is kept.
   */
  lemma ChangingKeysHeldBack(ks: seq<int>, prev: seq<int>, curr: seq<int>, i: int)
    requires SameSize(ks, prev, curr) && Changed(ks, prev) && 0 <= i < KeyCount
    ensures NextCurr(ks, prev, curr)[i] != curr[i] ==> curr[i] == 0 && ks[i] == 0 && prev[i] != 0 && NextCurr(ks, prev, curr)[i] == -1
    ensures ks[i] == prev[i] ==> NextCurr(ks, prev, curr)[i] == curr[i]
  {
  }

  /** The reported states stay in -1..1 when the live states do. */
  lemma NextCurrValues(ks: seq<int>, prev: seq<int>, curr: seq<int>)
    requires SameSize(ks, prev, curr) && KeyValues(ks) && KeyValues(curr)
    ensures KeyValues(NextCurr(ks, prev, curr))
  {
  }
}
