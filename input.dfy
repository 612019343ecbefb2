/**
  Input state (game.h, game_platform_linux.cpp, game_platform_win32.cpp): button transitions,
  the per-frame clearing of the "changed this frame" flags, the command-line search and the
  split of the executable's path into a directory and a file name.
*/
module Input {
  import opened Wrappers
  import opened Platform
  import opened Misc

  // ---------------------------------------------------------------------------------------------
  // Buttons
  // ---------------------------------------------------------------------------------------------

  /** The three flags of a game_input_button. */
  datatype ButtonState = ButtonState(wasDown: bool, isDown: bool, isNew: bool)

  /** IsNewlyPressed: the button went down during this frame. */
  predicate IsNewlyPressed(b: ButtonState) {
    !b.wasDown && b.isDown && b.isNew
  }

  /** The state a Process*Button call leaves: the old IsDown becomes WasDown, the new reading
      becomes IsDown, and the state is marked as changed this frame. It is newly pressed exactly
      when the button goes from up to down. */
  function Pressed(b: ButtonState, isDown: bool): (r: ButtonState)
    ensures IsNewlyPressed(r) <==> !b.isDown && isDown
  {
    ButtonState(b.isDown, isDown, true)
  }

  /** A button that was already down, or is up now, is never newly pressed, and neither is one
      whose IsNew flag has been cleared. */
  lemma NotNewlyPressed(b: ButtonState)
    ensures b.wasDown ==> !IsNewlyPressed(b)
    ensures !b.isDown ==> !IsNewlyPressed(b)
    ensures !IsNewlyPressed(b.(isNew := false))
  {
  }

  /** A press of a button that was up is newly pressed; a second press in a row is not, and a
      release never is. */
  lemma PressTransitions(b: ButtonState)
    ensures IsNewlyPressed(Pressed(b, true)) <==> !b.isDown
    ensures !IsNewlyPressed(Pressed(Pressed(b, true), true))
    ensures !IsNewlyPressed(Pressed(b, false))
  {
  }

  /** A game_input_button, updated in place through a pointer. */
  class GameInputButton {
    var wasDown: bool
    var isDown: bool
    var isNew: bool

    constructor ()
      ensures View() == ButtonState(false, false, false)
    {
      wasDown, isDown, isNew := false, false, false;
    }

    function View(): ButtonState
      reads this
    {
      ButtonState(wasDown, isDown, isNew)
    }
  }

  /** LinuxProcessKeyboardOrMouseButton and Win32ProcessKeyboardOrMouseButton, which have the
      same body. */
  method ProcessKeyboardOrMouseButton(button: GameInputButton, isDown: bool)
    modifies button
    ensures button.View() == Pressed(old(button.View()), isDown)
  {
    button.wasDown := button.isDown;
    button.isDown := isDown;
    button.isNew := true;
  }

  /** Every bit set in `bits` is set in `state`, one bit position at a time from the lowest. */
  predicate CoversBits(state: nat, bits: nat)
    decreases bits
  {
    bits == 0 || ((bits % 2 == 1 ==> state % 2 == 1) && CoversBits(state / 2, bits / 2))
  }

  /** `(State & Bit) == Bit` holds exactly when every bit of Bit is set in State. */
  lemma {:induction false} AndEqualsCovers(state: nat, bits: nat)
    ensures And(state, bits) == bits <==> CoversBits(state, bits)
    decreases bits
  {
    if bits != 0 {
      AndStep(state, bits);
      AndEqualsCovers(state / 2, bits / 2);
      if state == 0 {
        assert And(state, bits) == 0;
        assert !CoversBits(state, bits) by {
          if bits % 2 != 1 {
            assert bits / 2 != 0;
            ZeroCoversNothing(bits / 2);
          }
        }
      }
    }
  }

  /** A zero state covers no non-zero bit mask. */
  lemma {:induction false} ZeroCoversNothing(bits: nat)
    requires bits != 0
    ensures !CoversBits(0, bits)
    decreases bits
  {
    if bits % 2 != 1 {
      ZeroCoversNothing(bits / 2);
    }
  }

  /** Win32ProcessXInputDigitalButton: the button is down exactly when every bit of ButtonBit is
      set in the controller's button state; WasDown and IsNew update as for a key. */
  method ProcessXInputDigitalButton(button: GameInputButton, buttonState: u32, buttonBit: u32)
    modifies button
    ensures button.View() == Pressed(old(button.View()), CoversBits(buttonState, buttonBit))
  {
    AndEqualsCovers(buttonState, buttonBit);
    var isDown := And(buttonState, buttonBit) == buttonBit;
    button.wasDown := button.isDown;
    button.isDown := isDown;
    button.isNew := true;
  }

  /** The end-of-frame loop over GameState.KeyboardButtons or GameState.MouseButtons: every
      button's IsNew is cleared, and WasDown and IsDown stay. */
  method MakeButtonsObsolete(buttons: array<GameInputButton>)
    modifies set i | 0 <= i < buttons.Length :: buttons[i]
    ensures forall i :: 0 <= i < buttons.Length ==> !buttons[i].isNew
    ensures forall i :: 0 <= i < buttons.Length ==>
              buttons[i].wasDown == old(buttons[i].wasDown) && buttons[i].isDown == old(buttons[i].isDown)
    ensures forall i :: 0 <= i < buttons.Length ==> !IsNewlyPressed(buttons[i].View())
  {
    var index := 0;
    while index < buttons.Length
      invariant index <= buttons.Length
      invariant forall i :: 0 <= i < index ==> !buttons[i].isNew
      invariant forall i :: 0 <= i < buttons.Length ==>
                  buttons[i].wasDown == old(buttons[i].wasDown) && buttons[i].isDown == old(buttons[i].isDown)
    {
      buttons[index].isNew := false;
      index := index + 1;
    }
  }

  // ---------------------------------------------------------------------------------------------
  // The command line
  // ---------------------------------------------------------------------------------------------

  /** PARAM_MISSING. */
  const PARAM_MISSING: int := -1

  /** Every argument, and the parameter searched for, is a terminated C string. */
  predicate Terminated(argv: seq<seq<char>>) {
    forall i :: 0 <= i < |argv| ==> '\0' in argv[i]
  }

  /** The first index from `from` on whose argument compares equal to the parameter, as
      AreStringsEqual decides it, or PARAM_MISSING. */
  function FirstMatchFrom(argv: seq<seq<char>>, param: seq<char>, from: nat): (r: int)
    requires Terminated(argv) && '\0' in param && from <= |argv|
    ensures r == PARAM_MISSING || from <= r < |argv|
    decreases |argv| - from
  {
    if from == |argv| then PARAM_MISSING
    else if AgreeOnShorter(argv[from], param) then from
    else FirstMatchFrom(argv, param, from + 1)
  }

  /** The search finds the smallest matching index, and reports PARAM_MISSING only when no
      argument matches. */
  lemma {:induction false} FirstMatchFromCorrect(argv: seq<seq<char>>, param: seq<char>, from: nat)
    requires Terminated(argv) && '\0' in param && from <= |argv|
    ensures var r := FirstMatchFrom(argv, param, from);
      (r == PARAM_MISSING <==> forall i :: from <= i < |argv| ==> !AgreeOnShorter(argv[i], param)) &&
      (r != PARAM_MISSING ==> AgreeOnShorter(argv[r], param) &&
                              forall i :: from <= i < r ==> !AgreeOnShorter(argv[i], param))
    decreases |argv| - from
  {
    if from < |argv| && !AgreeOnShorter(argv[from], param) {
      FirstMatchFromCorrect(argv, param, from + 1);
    }
  }

  /** PlatformCheckParam(Param): the index of the first argument equal to Param, or
      PARAM_MISSING. */
  method PlatformCheckParam(argv: seq<seq<char>>, param: seq<char>) returns (r: int)
    requires Terminated(argv) && '\0' in param
    ensures r == FirstMatchFrom(argv, param, 0)
    ensures r == PARAM_MISSING <==> forall i :: 0 <= i < |argv| ==> !AgreeOnShorter(argv[i], param)
    ensures r != PARAM_MISSING ==>
              0 <= r < |argv| && AgreeOnShorter(argv[r], param) &&
              forall i :: 0 <= i < r ==> !AgreeOnShorter(argv[i], param)
  {
    FirstMatchFromCorrect(argv, param, 0);
    var index := 0;
    while index < |argv|
      invariant index <= |argv|
      invariant FirstMatchFrom(argv, param, index) == FirstMatchFrom(argv, param, 0)
    {
      var equal := AreStringsEqual(argv[index], param);
      if equal {
        return index;
      }
      index := index + 1;
    }
    return PARAM_MISSING;
  }

  /** PlatformCheckParamValue(Param): the argument after the first match, or null when Param is
      missing or is the last argument. */
  method PlatformCheckParamValue(argv: seq<seq<char>>, param: seq<char>) returns (r: Option<seq<char>>)
    requires Terminated(argv) && '\0' in param
    ensures var i := FirstMatchFrom(argv, param, 0);
      r == if i == PARAM_MISSING || i + 1 >= |argv| then None else Some(argv[i + 1])
    ensures r.Some? ==> exists i :: 0 <= i < |argv| - 1 && AgreeOnShorter(argv[i], param) && r.value == argv[i + 1]
    ensures r.None? && |argv| > 0 && AgreeOnShorter(argv[|argv| - 1], param) ==>
              forall i :: 0 <= i < |argv| - 1 ==> !AgreeOnShorter(argv[i], param)
  {
    var index := PlatformCheckParam(argv, param);
    if index == PARAM_MISSING {
      return None;
    }
    if index + 1 >= |argv| {
      return None;
    }
    return Some(argv[index + 1]);
  }

  // ---------------------------------------------------------------------------------------------
  // The executable's name and directory
  // ---------------------------------------------------------------------------------------------

  /** `pastLast` splits the C string `moduleName` into a directory and a file name at a separator:
      it lies within the string, no separator follows it, and it is 0 or follows a separator. */
  predicate SplitsAt(moduleName: seq<char>, separator: char, pastLast: nat)
    requires '\0' in moduleName
  {
    var n := CStringLength(moduleName);
    && pastLast <= n
    && separator !in moduleName[pastLast..n]
    && (pastLast == 0 || moduleName[pastLast - 1] == separator)
  }

  /** There is one split point only: the position just past the last separator. */
  lemma SplitPointUnique(moduleName: seq<char>, separator: char, p: nat, q: nat)
    requires '\0' in moduleName
    requires SplitsAt(moduleName, separator, p) && SplitsAt(moduleName, separator, q)
    ensures p == q
  {
  }

  /** The start-up loop that walks the module name up to its terminator and remembers the
      position just past the last separator ('/' on Linux, '\\' on Windows). The directory is
      everything before that position and the file name everything from it to the terminator:
      they make up the module name again, the name holds no separator, and the directory is
      empty or ends with one. */
  method FindPastLastSeparator(moduleName: seq<char>, separator: char) returns (pastLast: nat)
    requires '\0' in moduleName && separator != '\0'
    ensures SplitsAt(moduleName, separator, pastLast)
  {
    ghost var n := CStringLength(moduleName);
    pastLast := 0;
    var at: nat := 0;
    while moduleName[at] != '\0'
      invariant pastLast <= at <= n
      invariant separator !in moduleName[pastLast..at]
      invariant pastLast == 0 || moduleName[pastLast - 1] == separator
      decreases n - at
    {
      if moduleName[at] == separator {
        pastLast := at + 1;
      } else {
        assert moduleName[pastLast..at + 1] == moduleName[pastLast..at] + [moduleName[at]];
      }
      at := at + 1;
    }
  }

  /** A buffer that holds nothing but terminators, as a zero-initialised one does. */
  predicate Zeroed(buffer: seq<char>) {
    forall k :: 0 <= k < |buffer| ==> buffer[k] == '\0'
  }

  /** The buffer holds a C string of `length` characters: its first terminator is at `length`. */
  predicate HoldsCString(buffer: seq<char>, length: nat) {
    length < |buffer| && buffer[length] == '\0' && '\0' !in buffer[..length]
  }

  /** HoldsCString is the C string length: CStringLength gives that length back. */
  lemma HoldsCStringLength(buffer: seq<char>, length: nat)
    requires HoldsCString(buffer, length)
    ensures '\0' in buffer && CStringLength(buffer) == length
  {
    assert buffer == buffer[..length] + ['\0'] + buffer[length + 1..];
    CStringLengthOf(buffer[..length], buffer[length + 1..]);
  }

  /** A terminator-free text copied without its terminator over the start of a zeroed, longer
      buffer leaves a C string of the text's length there. */
  lemma CopiedIntoZeroed(before: seq<char>, after: seq<char>, text: seq<char>)
    requires |text| < |before| == |after|
    requires after[..|text|] == text && after[|text|..] == before[|text|..]
    requires '\0' !in text
    ensures Zeroed(before) ==> HoldsCString(after, |text|)
  {
    if Zeroed(before) {
      assert after[|text|] == after[|text|..][0] == before[|text|];
    }
  }

  /** The two copies of the start-up code, on the buffers' contents before and after: a zeroed
      ExecutableName ends up holding the file name as a C string, and a zeroed ExecutablePath the
      directory. */
  lemma SplitCopiesTerminated(m: seq<char>, pastLast: nat, nameBefore: seq<char>, nameAfter: seq<char>,
                              pathBefore: seq<char>, pathAfter: seq<char>)
    requires '\0' in m && pastLast <= CStringLength(m)
    requires CStringLength(m) < |nameBefore| == |nameAfter| && CStringLength(m) < |pathBefore| == |pathAfter|
    requires var n := CStringLength(m);
      && nameAfter[..n - pastLast] == m[pastLast..n] && nameAfter[n - pastLast..] == nameBefore[n - pastLast..]
      && pathAfter[..pastLast] == m[..pastLast] && pathAfter[pastLast..] == pathBefore[pastLast..]
    ensures Zeroed(nameBefore) ==> HoldsCString(nameAfter, CStringLength(m) - pastLast)
    ensures Zeroed(pathBefore) ==> HoldsCString(pathAfter, pastLast)
  {
    var n := CStringLength(m);
    assert '\0' !in m[pastLast..n] && '\0' !in m[..pastLast];
    CopiedIntoZeroed(nameBefore, nameAfter, m[pastLast..n]);
    CopiedIntoZeroed(pathBefore, pathAfter, m[..pastLast]);
  }

  /** The start-up code that stores the executable's name and directory: the loop above, then
      CopyString of the characters from just past the last separator into ExecutableName and
      CopyStringN of the characters before it into ExecutablePath. The module name, ExecutableName
      and ExecutablePath are separate 2048-character buffers, and the module name is at most 2047
      characters long, so both copies fit with room for a terminator. Neither copy writes a
      terminator: the two results are C strings because the buffers start zeroed. */
  method SplitModuleName(moduleName: array<char>, separator: char, name: array<char>, path: array<char>)
    returns (pastLast: nat)
    requires '\0' in moduleName[..] && separator != '\0'
    requires CStringLength(moduleName[..]) < name.Length && CStringLength(moduleName[..]) < path.Length
    requires name != moduleName && path != moduleName && name != path
    modifies name, path
    ensures var m, n := moduleName[..], CStringLength(moduleName[..]);
      && SplitsAt(m, separator, pastLast)
      && name[..n - pastLast] == m[pastLast..n] && name[n - pastLast..] == old(name[n - pastLast..])
      && path[..pastLast] == m[..pastLast] && path[pastLast..] == old(path[pastLast..])
    ensures Zeroed(old(name[..])) ==> HoldsCString(name[..], CStringLength(moduleName[..]) - pastLast)
    ensures Zeroed(old(path[..])) ==> HoldsCString(path[..], pastLast)
  {
    ghost var m, n := moduleName[..], CStringLength(moduleName[..]);
    ghost var nameBefore, pathBefore := name[..], path[..];
    pastLast := FindPastLastSeparator(moduleName[..], separator);
    CStringLengthFrom(moduleName[..], pastLast);
    CopyString(name, moduleName, pastLast);
    ghost var nameAfter := name[..];
    CopyStringN(path, moduleName, pastLast);
    assert name[..] == nameAfter;
    SplitCopiesTerminated(m, pastLast, nameBefore, name[..], pathBefore, path[..]);
  }
}
