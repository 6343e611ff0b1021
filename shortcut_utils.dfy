/** Display text for a keyboard shortcut: modifier symbols in the fixed order ⌘ ⇧ ⌥ ⌃,
    then the key's name. Key codes and modifier bits carry the values of Carbon's
    `kVK_*` key codes and `cmdKey`/`shiftKey`/`optionKey`/`controlKey` masks. */
module ShortcutUtils {

  import opened Wrappers
  import opened Strings

  type UInt32 = x: int | 0 <= x < 0x1_0000_0000

  /** A Carbon modifier mask. */
  type Modifiers = bv32

  const CmdKey: Modifiers := 0x100
  const ShiftKey: Modifiers := 0x200
  const OptionKey: Modifiers := 0x800
  const ControlKey: Modifiers := 0x1000

  /** The four bits a recorded shortcut can carry. */
  const AllModifierKeys: Modifiers := CmdKey | ShiftKey | OptionKey | ControlKey

  const KeySpace: UInt32 := 49
  const KeyReturn: UInt32 := 36
  const KeyEscape: UInt32 := 53
  const KeyTab: UInt32 := 48
  const KeyDelete: UInt32 := 51
  const KeyT: UInt32 := 17

  /** The `letters` table: the ANSI letter keys and their letters. */
  function LetterOf(keyCode: UInt32): (r: Option<char>)
    ensures r.Some? ==> 'A' <= r.value <= 'Z'
  {
    match keyCode
    case 0 => Some('A') case 11 => Some('B') case 8 => Some('C') case 2 => Some('D')
    case 14 => Some('E') case 3 => Some('F') case 5 => Some('G') case 4 => Some('H')
    case 34 => Some('I') case 38 => Some('J') case 40 => Some('K') case 37 => Some('L')
    case 46 => Some('M') case 45 => Some('N') case 31 => Some('O') case 35 => Some('P')
    case 12 => Some('Q') case 15 => Some('R') case 1 => Some('S') case 17 => Some('T')
    case 32 => Some('U') case 9 => Some('V') case 13 => Some('W') case 7 => Some('X')
    case 16 => Some('Y') case 6 => Some('Z')
    case _ => None
  }

  /** The `digits` table: the ANSI digit keys of the main row and their digits. */
  function DigitOf(keyCode: UInt32): (r: Option<char>)
    ensures r.Some? ==> IsDigit(r.value)
  {
    match keyCode
    case 29 => Some('0') case 18 => Some('1') case 19 => Some('2') case 20 => Some('3')
    case 21 => Some('4') case 23 => Some('5') case 22 => Some('6') case 26 => Some('7')
    case 28 => Some('8') case 25 => Some('9')
    case _ => None
  }

  /** The key codes with a name of their own in the `switch`. */
  function SpecialName(keyCode: UInt32): Option<string> {
    if keyCode == KeySpace then Some("Space")
    else if keyCode == KeyReturn then Some("Return")
    else if keyCode == KeyEscape then Some("Esc")
    else if keyCode == KeyTab then Some("Tab")
    else if keyCode == KeyDelete then Some("Delete")
    else None
  }

  /** `keyCodeToString`: a letter, else a digit, else a special key's name, else `Key` and
      the code in decimal. Total, and never empty. */
  function KeyCodeToString(keyCode: UInt32): (r: string)
    ensures r != []
    ensures LetterOf(keyCode).Some? ==> |r| == 1 && 'A' <= r[0] <= 'Z'
    ensures DigitOf(keyCode).Some? ==> |r| == 1 && IsDigit(r[0])
    ensures LetterOf(keyCode).None? && DigitOf(keyCode).None? && SpecialName(keyCode).None? ==>
      r == "Key" + NatToDecimal(keyCode)
    ensures keyCode == KeySpace ==> r == "Space"
    ensures keyCode == KeyReturn ==> r == "Return"
    ensures keyCode == KeyEscape ==> r == "Esc"
    ensures keyCode == KeyTab ==> r == "Tab"
    ensures keyCode == KeyDelete ==> r == "Delete"
  {
    if LetterOf(keyCode).Some? then [LetterOf(keyCode).value]
    else if DigitOf(keyCode).Some? then [DigitOf(keyCode).value]
    else if SpecialName(keyCode).Some? then SpecialName(keyCode).value
    else "Key" + NatToDecimal(keyCode)
  }

  /** The inverse of the `letters` table; every letter from A to Z has a key. */
  function LetterCode(c: char): (r: Option<UInt32>)
    ensures r.Some? <==> 'A' <= c <= 'Z'
  {
    match c
    case 'A' => Some(0) case 'B' => Some(11) case 'C' => Some(8) case 'D' => Some(2)
    case 'E' => Some(14) case 'F' => Some(3) case 'G' => Some(5) case 'H' => Some(4)
    case 'I' => Some(34) case 'J' => Some(38) case 'K' => Some(40) case 'L' => Some(37)
    case 'M' => Some(46) case 'N' => Some(45) case 'O' => Some(31) case 'P' => Some(35)
    case 'Q' => Some(12) case 'R' => Some(15) case 'S' => Some(1) case 'T' => Some(17)
    case 'U' => Some(32) case 'V' => Some(9) case 'W' => Some(13) case 'X' => Some(7)
    case 'Y' => Some(16) case 'Z' => Some(6)
    case _ => None
  }

  /** The inverse of the `digits` table; every digit has a key. */
  function DigitCode(c: char): (r: Option<UInt32>)
    ensures r.Some? <==> IsDigit(c)
  {
    match c
    case '0' => Some(29) case '1' => Some(18) case '2' => Some(19) case '3' => Some(20)
    case '4' => Some(21) case '5' => Some(23) case '6' => Some(22) case '7' => Some(26)
    case '8' => Some(28) case '9' => Some(25)
    case _ => None
  }

  /** The key code a displayed key name stands for, if any. */
  function KeyCodeOfName(name: string): Option<UInt32> {
    if |name| == 1 && LetterCode(name[0]).Some? then LetterCode(name[0])
    else if |name| == 1 && DigitCode(name[0]).Some? then DigitCode(name[0])
    else if name == "Space" then Some(KeySpace)
    else if name == "Return" then Some(KeyReturn)
    else if name == "Esc" then Some(KeyEscape)
    else if name == "Tab" then Some(KeyTab)
    else if name == "Delete" then Some(KeyDelete)
    else if |name| > 3 && name[..3] == "Key" then
      match ParseDecimal(name[3..])
      case Some(n) => if n < 0x1_0000_0000 then Some(n as UInt32) else None
      case None => None
    else None
  }

  /** Each table entry is read back by the inverse table. */
  lemma TablesInverse(keyCode: UInt32)
    ensures LetterOf(keyCode).Some? ==> LetterCode(LetterOf(keyCode).value) == Some(keyCode)
    ensures DigitOf(keyCode).Some? ==> DigitCode(DigitOf(keyCode).value) == Some(keyCode)
  {
  }

  /** The letter, digit and special tables share no key code, so the order of the lookups
      shadows nothing. */
  lemma TablesDisjoint(keyCode: UInt32)
    ensures LetterOf(keyCode).Some? ==> DigitOf(keyCode).None? && SpecialName(keyCode).None?
    ensures DigitOf(keyCode).Some? ==> SpecialName(keyCode).None?
  {
  }

  /** A key's name identifies the key: reading back the displayed name gives the code. */
  lemma KeyNameRoundTrip(keyCode: UInt32)
    ensures KeyCodeOfName(KeyCodeToString(keyCode)) == Some(keyCode)
  {
    var name := KeyCodeToString(keyCode);
    TablesInverse(keyCode);
    if LetterOf(keyCode).None? && DigitOf(keyCode).None? && SpecialName(keyCode).None? {
      var digits := NatToDecimal(keyCode);
      assert name[..3] == "Key" && name[3..] == digits;
      assert name[0] == 'K' && |name| > 3;
      DecimalRoundTrip(keyCode);
    }
  }

  /** Distinct key codes are displayed differently. */
  lemma KeyNamesDistinct(a: UInt32, b: UInt32)
    requires KeyCodeToString(a) == KeyCodeToString(b)
    ensures a == b
  {
    KeyNameRoundTrip(a);
    KeyNameRoundTrip(b);
  }

  // ---------------------------------------------------------------------------------------
  // Modifier symbols

  const Command: char := '⌘'
  const Shift: char := '⇧'
  const Option: char := '⌥'
  const Control: char := '⌃'

  /** The position of a symbol in the display order. */
  function SymbolRank(c: char): int {
    if c == Command then 0 else if c == Shift then 1 else if c == Option then 2 else if c == Control then 3 else 4
  }

  /** The symbols of the set bits, in display order. */
  function ModifierSymbols(modifiers: Modifiers): (r: string)
    ensures Command in r <==> modifiers & CmdKey != 0
    ensures Shift in r <==> modifiers & ShiftKey != 0
    ensures Option in r <==> modifiers & OptionKey != 0
    ensures Control in r <==> modifiers & ControlKey != 0
    ensures forall i, j :: 0 <= i < j < |r| ==> SymbolRank(r[i]) < SymbolRank(r[j])
    ensures |r| <= 4
  {
    (if modifiers & CmdKey != 0 then [Command] else [])
    + (if modifiers & ShiftKey != 0 then [Shift] else [])
    + (if modifiers & OptionKey != 0 then [Option] else [])
    + (if modifiers & ControlKey != 0 then [Control] else [])
  }

  /** No modifier gives no symbol, and bits outside the four are not shown. */
  lemma ModifierSymbolsOfUnusedBits(modifiers: Modifiers)
    ensures ModifierSymbols(0) == []
    ensures ModifierSymbols(modifiers) == ModifierSymbols(modifiers & AllModifierKeys)
  {
    assert (modifiers & AllModifierKeys) & CmdKey == modifiers & CmdKey;
    assert (modifiers & AllModifierKeys) & ShiftKey == modifiers & ShiftKey;
    assert (modifiers & AllModifierKeys) & OptionKey == modifiers & OptionKey;
    assert (modifiers & AllModifierKeys) & ControlKey == modifiers & ControlKey;
  }

  /** `shortcutDisplayString`: the symbol of each set modifier bit is appended in the order
      ⌘ ⇧ ⌥ ⌃, then the key's name, and the parts are joined. */
  method ShortcutDisplayString(keyCode: UInt32, modifiers: Modifiers) returns (r: string)
    ensures r == ModifierSymbols(modifiers) + KeyCodeToString(keyCode)
    ensures modifiers & AllModifierKeys == 0 ==> r == KeyCodeToString(keyCode)
  {
    var parts: seq<string> := [];
    if modifiers & CmdKey != 0 { parts := parts + ["⌘"]; }
    if modifiers & ShiftKey != 0 { parts := parts + ["⇧"]; }
    if modifiers & OptionKey != 0 { parts := parts + ["⌥"]; }
    if modifiers & ControlKey != 0 { parts := parts + ["⌃"]; }
    assert parts == SymbolParts(modifiers);
    parts := parts + [KeyCodeToString(keyCode)];
    r := Joined(parts);
    JoinedSymbols(modifiers, keyCode);
    ModifierSymbolsOfUnusedBits(modifiers);
  }

  /** `parts.joined()`: the parts concatenated. */
  function Joined(parts: seq<string>): string {
    if parts == [] then "" else parts[0] + Joined(parts[1..])
  }

  /** Joining one-symbol parts and the key name is the symbol string and the name. */
  lemma JoinedSymbols(modifiers: Modifiers, keyCode: UInt32)
    ensures Joined(SymbolParts(modifiers) + [KeyCodeToString(keyCode)]) ==
      ModifierSymbols(modifiers) + KeyCodeToString(keyCode)
  {
    var key := KeyCodeToString(keyCode);
    var parts := SymbolParts(modifiers);
    JoinedAppend(parts, [key]);
    JoinedSingletons(modifiers);
    assert Joined([key]) == key + Joined([]);
  }

  /** The one-symbol parts, in the order they are appended. */
  function SymbolParts(modifiers: Modifiers): seq<string> {
    (if modifiers & CmdKey != 0 then ["⌘"] else [])
    + (if modifiers & ShiftKey != 0 then ["⇧"] else [])
    + (if modifiers & OptionKey != 0 then ["⌥"] else [])
    + (if modifiers & ControlKey != 0 then ["⌃"] else [])
  }

  lemma JoinedSingletons(modifiers: Modifiers)
    ensures Joined(SymbolParts(modifiers)) == ModifierSymbols(modifiers)
  {
    var a := if modifiers & CmdKey != 0 then ["⌘"] else [];
    var b := if modifiers & ShiftKey != 0 then ["⇧"] else [];
    var c := if modifiers & OptionKey != 0 then ["⌥"] else [];
    var d := if modifiers & ControlKey != 0 then ["⌃"] else [];
    JoinedAtMostOne(a);
    JoinedAtMostOne(b);
    JoinedAtMostOne(c);
    JoinedAtMostOne(d);
    JoinedAppend(a, b);
    JoinedAppend(a + b, c);
    JoinedAppend(a + b + c, d);
  }

  lemma JoinedAtMostOne(parts: seq<string>)
    requires |parts| <= 1
    ensures Joined(parts) == if parts == [] then "" else parts[0]
  {
    if parts != [] {
      assert Joined(parts) == parts[0] + Joined([]);
    }
  }

  lemma {:induction false} JoinedAppend(a: seq<string>, b: seq<string>)
    ensures Joined(a + b) == Joined(a) + Joined(b)
    decreases |a|
  {
    if a == [] {
      assert a + b == b;
    } else {
      assert (a + b)[1..] == a[1..] + b;
      JoinedAppend(a[1..], b);
    }
  }
}
