/**
 * `src/keys.rs`: the chord a low-level keyboard hook reports (`Keys`) and the
 * virtual-key table (`VirtualKey`, `from_vk`). The hook's inputs (`n_code`, the message
 * in `w_param`, the `vkCode` of the `KBDLLHOOKSTRUCT` behind `l_param`) and the
 * `GetAsyncKeyState` readings of the modifier keys are the fields of `HookInput`.
 *
 * `VirtualKey` is a fieldless enum whose discriminants are the Windows virtual-key
 * codes; a variant is represented here by its discriminant, and each variant is a
 * named constant holding it.
 */
module Keys {

  import opened Wrappers

  // The variants of `VirtualKey` with their discriminants, in the order the enum lists them.

  const Unknown: int := 0x00
  const Backspace: int := 0x08
  const Tab: int := 0x09
  const Clear: int := 0x0C
  const Enter: int := 0x0D
  const Shift: int := 0x10
  const Ctrl: int := 0x11
  const Alt: int := 0x12
  const Pause: int := 0x13
  const Capslock: int := 0x14
  const Esc: int := 0x1B
  const Space: int := 0x20
  const PageUp: int := 0x21
  const PageDown: int := 0x22
  const End: int := 0x23
  const Home: int := 0x24
  const Left: int := 0x25
  const Up: int := 0x26
  const Right: int := 0x27
  const Down: int := 0x28
  const Select: int := 0x29
  const Print: int := 0x2A
  const Execute: int := 0x2B
  const PrintScreen: int := 0x2C
  const Insert: int := 0x2D
  const Delete: int := 0x2E
  const Help: int := 0x2F
  const Key0: int := 0x30
  const Key1: int := 0x31
  const Key2: int := 0x32
  const Key3: int := 0x33
  const Key4: int := 0x34
  const Key5: int := 0x35
  const Key6: int := 0x36
  const Key7: int := 0x37
  const Key8: int := 0x38
  const Key9: int := 0x39
  const A: int := 0x41
  const B: int := 0x42
  const C: int := 0x43
  const D: int := 0x44
  const E: int := 0x45
  const F: int := 0x46
  const G: int := 0x47
  const H: int := 0x48
  const I: int := 0x49
  const J: int := 0x4A
  const K: int := 0x4B
  const L: int := 0x4C
  const M: int := 0x4D
  const N: int := 0x4E
  const O: int := 0x4F
  const P: int := 0x50
  const Q: int := 0x51
  const R: int := 0x52
  const S: int := 0x53
  const T: int := 0x54
  const U: int := 0x55
  const V: int := 0x56
  const W: int := 0x57
  const X: int := 0x58
  const Y: int := 0x59
  const Z: int := 0x5A
  const LeftWin: int := 0x5B
  const RightWin: int := 0x5C
  const Apps: int := 0x5D
  const Sleep: int := 0x5F
  const Num0: int := 0x60
  const Num1: int := 0x61
  const Num2: int := 0x62
  const Num3: int := 0x63
  const Num4: int := 0x64
  const Num5: int := 0x65
  const Num6: int := 0x66
  const Num7: int := 0x67
  const Num8: int := 0x68
  const Num9: int := 0x69
  const Multiply: int := 0x6A
  const Add: int := 0x6B
  const Separator: int := 0x6C
  const Subtract: int := 0x6D
  const Decimal: int := 0x6E
  const Divide: int := 0x6F
  const F1: int := 0x70
  const F2: int := 0x71
  const F3: int := 0x72
  const F4: int := 0x73
  const F5: int := 0x74
  const F6: int := 0x75
  const F7: int := 0x76
  const F8: int := 0x77
  const F9: int := 0x78
  const F10: int := 0x79
  const F11: int := 0x7A
  const F12: int := 0x7B
  const F13: int := 0x7C
  const F14: int := 0x7D
  const F15: int := 0x7E
  const F16: int := 0x7F
  const F17: int := 0x80
  const F18: int := 0x81
  const F19: int := 0x82
  const F20: int := 0x83
  const F21: int := 0x84
  const F22: int := 0x85
  const F23: int := 0x86
  const F24: int := 0x87
  const NumLock: int := 0x90
  const ScrollLock: int := 0x91
  const LeftShift: int := 0xA0
  const RightShift: int := 0xA1
  const LeftControl: int := 0xA2
  const RightControl: int := 0xA3
  const LeftAlt: int := 0xA4
  const RightAlt: int := 0xA5
  const BrowserBack: int := 0xA6
  const BrowserForward: int := 0xA7
  const BrowserRefresh: int := 0xA8
  const BrowserStop: int := 0xA9
  const BrowserSearch: int := 0xAA
  const BrowserFavorites: int := 0xAB
  const BrowserHome: int := 0xAC
  const VolumeMute: int := 0xAD
  const VolumeDown: int := 0xAE
  const VolumeUp: int := 0xAF
  const MediaNextTrack: int := 0xB0
  const MediaPreviousTrack: int := 0xB1
  const MediaStop: int := 0xB2
  const MediaPlayPause: int := 0xB3
  const LaunchMail: int := 0xB4
  const LaunchMediaSelect: int := 0xB5
  const LaunchApp1: int := 0xB6
  const LaunchApp2: int := 0xB7
  const Semicolon: int := 0xBA
  const Equals: int := 0xBB
  const Comma: int := 0xBC
  const Minus: int := 0xBD
  const Period: int := 0xBE
  const Slash: int := 0xBF
  const BackTick: int := 0xC0
  const LeftBracket: int := 0xDB
  const Backslash: int := 0xDC
  const RightBracket: int := 0xDD
  const Quote: int := 0xDE

  /** The variants whose discriminant lies in 0x00 to 0x0F. */
  predicate ListedRow0(c: int)
  {
    c == Unknown || c == Backspace || c == Tab || c == Clear || c == Enter
  }

  /** The variants whose discriminant lies in 0x10 to 0x1F. */
  predicate ListedRow1(c: int)
  {
    c == Shift || c == Ctrl || c == Alt || c == Pause || c == Capslock || c == Esc
  }

  /** The variants whose discriminant lies in 0x20 to 0x2F. */
  predicate ListedRow2(c: int)
  {
    c == Space || c == PageUp || c == PageDown || c == End || c == Home || c == Left ||
    c == Up || c == Right || c == Down || c == Select || c == Print || c == Execute ||
    c == PrintScreen || c == Insert || c == Delete || c == Help
  }

  /** The variants whose discriminant lies in 0x30 to 0x3F. */
  predicate ListedRow3(c: int)
  {
    c == Key0 || c == Key1 || c == Key2 || c == Key3 || c == Key4 || c == Key5 || c == Key6 ||
    c == Key7 || c == Key8 || c == Key9
  }

  /** The variants whose discriminant lies in 0x40 to 0x4F. */
  predicate ListedRow4(c: int)
  {
    c == A || c == B || c == C || c == D || c == E || c == F || c == G || c == H || c == I ||
    c == J || c == K || c == L || c == M || c == N || c == O
  }

  /** The variants whose discriminant lies in 0x50 to 0x5F. */
  predicate ListedRow5(c: int)
  {
    c == P || c == Q || c == R || c == S || c == T || c == U || c == V || c == W || c == X ||
    c == Y || c == Z || c == LeftWin || c == RightWin || c == Apps || c == Sleep
  }

  /** The variants whose discriminant lies in 0x60 to 0x6F. */
  predicate ListedRow6(c: int)
  {
    c == Num0 || c == Num1 || c == Num2 || c == Num3 || c == Num4 || c == Num5 || c == Num6 ||
    c == Num7 || c == Num8 || c == Num9 || c == Multiply || c == Add || c == Separator ||
    c == Subtract || c == Decimal || c == Divide
  }

  /** The variants whose discriminant lies in 0x70 to 0x7F. */
  predicate ListedRow7(c: int)
  {
    c == F1 || c == F2 || c == F3 || c == F4 || c == F5 || c == F6 || c == F7 || c == F8 ||
    c == F9 || c == F10 || c == F11 || c == F12 || c == F13 || c == F14 || c == F15 || c == F16
  }

  /** The variants whose discriminant lies in 0x80 to 0x8F. */
  predicate ListedRow8(c: int)
  {
    c == F17 || c == F18 || c == F19 || c == F20 || c == F21 || c == F22 || c == F23 || c == F24
  }

  /** The variants whose discriminant lies in 0x90 to 0x9F. */
  predicate ListedRow9(c: int)
  {
    c == NumLock || c == ScrollLock
  }

  /** The variants whose discriminant lies in 0xA0 to 0xAF. */
  predicate ListedRowA(c: int)
  {
    c == LeftShift || c == RightShift || c == LeftControl || c == RightControl ||
    c == LeftAlt || c == RightAlt || c == BrowserBack || c == BrowserForward ||
    c == BrowserRefresh || c == BrowserStop || c == BrowserSearch || c == BrowserFavorites ||
    c == BrowserHome || c == VolumeMute || c == VolumeDown || c == VolumeUp
  }

  /** The variants whose discriminant lies in 0xB0 to 0xBF. */
  predicate ListedRowB(c: int)
  {
    c == MediaNextTrack || c == MediaPreviousTrack || c == MediaStop || c == MediaPlayPause ||
    c == LaunchMail || c == LaunchMediaSelect || c == LaunchApp1 || c == LaunchApp2 ||
    c == Semicolon || c == Equals || c == Comma || c == Minus || c == Period || c == Slash
  }

  /** The variants whose discriminant lies in 0xC0 to 0xCF. */
  predicate ListedRowC(c: int)
  {
    c == BackTick
  }

  /** The variants whose discriminant lies in 0xD0 to 0xDF. */
  predicate ListedRowD(c: int)
  {
    c == LeftBracket || c == Backslash || c == RightBracket || c == Quote
  }

  /** The discriminants the enum lists. */
  predicate Listed(c: int)
  {
    ListedRow0(c) || ListedRow1(c) || ListedRow2(c) || ListedRow3(c) || ListedRow4(c) || ListedRow5(c) || ListedRow6(c)
    || ListedRow7(c) || ListedRow8(c) || ListedRow9(c) || ListedRowA(c) || ListedRowB(c) || ListedRowC(c) || ListedRowD(c)
  }

  /** A variant of the enum, as its discriminant. */
  type VirtualKey = c: int | Listed(c) witness Unknown

  /**
   * `VirtualKey::from_vk`: the variant listed for a code, `Unknown` for any other code.
   * The table is laid out by the high hex digit of the code, one row function per digit.
   */
  function FromVk(vk: int): (k: VirtualKey)
  {
    if vk < 0 || vk > 0xFF then Unknown
    else match vk / 16
      case 0 => FromVkRow0(vk % 16)
      case 1 => FromVkRow1(vk % 16)
      case 2 => FromVkRow2(vk % 16)
      case 3 => FromVkRow3(vk % 16)
      case 4 => FromVkRow4(vk % 16)
      case 5 => FromVkRow5(vk % 16)
      case 6 => FromVkRow6(vk % 16)
      case 7 => FromVkRow7(vk % 16)
      case 8 => FromVkRow8(vk % 16)
      case 9 => FromVkRow9(vk % 16)
      case 10 => FromVkRowA(vk % 16)
      case 11 => FromVkRowB(vk % 16)
      case 12 => FromVkRowC(vk % 16)
      case 13 => FromVkRowD(vk % 16)
      case _ => Unknown
  }

  /** Codes 0x00 to 0x0F. */
  function FromVkRow0(lo: int): VirtualKey
  {
    match lo
    case 8 => Backspace
    case 9 => Tab
    case 12 => Clear
    case 13 => Enter
    case _ => Unknown
  }

  /** Codes 0x10 to 0x1F. */
  function FromVkRow1(lo: int): VirtualKey
  {
    match lo
    case 0 => Shift
    case 1 => Ctrl
    case 2 => Alt
    case 3 => Pause
    case 4 => Capslock
    case 11 => Esc
    case _ => Unknown
  }

  /** Codes 0x20 to 0x2F. */
  function FromVkRow2(lo: int): VirtualKey
  {
    match lo
    case 0 => Space
    case 1 => PageUp
    case 2 => PageDown
    case 3 => End
    case 4 => Home
    case 5 => Left
    case 6 => Up
    case 7 => Right
    case 8 => Down
    case 9 => Select
    case 10 => Print
    case 11 => Execute
    case 12 => PrintScreen
    case 13 => Insert
    case 14 => Delete
    case 15 => Help
    case _ => Unknown
  }

  /** Codes 0x30 to 0x3F. */
  function FromVkRow3(lo: int): VirtualKey
  {
    match lo
    case 0 => Key0
    case 1 => Key1
    case 2 => Key2
    case 3 => Key3
    case 4 => Key4
    case 5 => Key5
    case 6 => Key6
    case 7 => Key7
    case 8 => Key8
    case 9 => Key9
    case _ => Unknown
  }

  /** Codes 0x40 to 0x4F. */
  function FromVkRow4(lo: int): VirtualKey
  {
    match lo
    case 1 => A
    case 2 => B
    case 3 => C
    case 4 => D
    case 5 => E
    case 6 => F
    case 7 => G
    case 8 => H
    case 9 => I
    case 10 => J
    case 11 => K
    case 12 => L
    case 13 => M
    case 14 => N
    case 15 => O
    case _ => Unknown
  }

  /** Codes 0x50 to 0x5F. */
  function FromVkRow5(lo: int): VirtualKey
  {
    match lo
    case 0 => P
    case 1 => Q
    case 2 => R
    case 3 => S
    case 4 => T
    case 5 => U
    case 6 => V
    case 7 => W
    case 8 => X
    case 9 => Y
    case 10 => Z
    case 11 => LeftWin
    case 12 => RightWin
    case 13 => Apps
    case 15 => Sleep
    case _ => Unknown
  }

  /** Codes 0x60 to 0x6F. */
  function FromVkRow6(lo: int): VirtualKey
  {
    match lo
    case 0 => Num0
    case 1 => Num1
    case 2 => Num2
    case 3 => Num3
    case 4 => Num4
    case 5 => Num5
    case 6 => Num6
    case 7 => Num7
    case 8 => Num8
    case 9 => Num9
    case 10 => Multiply
    case 11 => Add
    case 12 => Separator
    case 13 => Subtract
    case 14 => Decimal
    case 15 => Divide
    case _ => Unknown
  }

  /** Codes 0x70 to 0x7F. */
  function FromVkRow7(lo: int): VirtualKey
  {
    match lo
    case 0 => F1
    case 1 => F2
    case 2 => F3
    case 3 => F4
    case 4 => F5
    case 5 => F6
    case 6 => F7
    case 7 => F8
    case 8 => F9
    case 9 => F10
    case 10 => F11
    case 11 => F12
    case 12 => F13
    case 13 => F14
    case 14 => F15
    case 15 => F16
    case _ => Unknown
  }

  /** Codes 0x80 to 0x8F. */
  function FromVkRow8(lo: int): VirtualKey
  {
    match lo
    case 0 => F17
    case 1 => F18
    case 2 => F19
    case 3 => F20
    case 4 => F21
    case 5 => F22
    case 6 => F23
    case 7 => F24
    case _ => Unknown
  }

  /** Codes 0x90 to 0x9F. */
  function FromVkRow9(lo: int): VirtualKey
  {
    match lo
    case 0 => NumLock
    case 1 => ScrollLock
    case _ => Unknown
  }

  /** Codes 0xA0 to 0xAF. */
  function FromVkRowA(lo: int): VirtualKey
  {
    match lo
    case 0 => LeftShift
    case 1 => RightShift
    case 2 => LeftControl
    case 3 => RightControl
    case 4 => LeftAlt
    case 5 => RightAlt
    case 6 => BrowserBack
    case 7 => BrowserForward
    case 8 => BrowserRefresh
    case 9 => BrowserStop
    case 10 => BrowserSearch
    case 11 => BrowserFavorites
    case 12 => BrowserHome
    case 13 => VolumeMute
    case 14 => VolumeDown
    case 15 => VolumeUp
    case _ => Unknown
  }

  /** Codes 0xB0 to 0xBF. */
  function FromVkRowB(lo: int): VirtualKey
  {
    match lo
    case 0 => MediaNextTrack
    case 1 => MediaPreviousTrack
    case 2 => MediaStop
    case 3 => MediaPlayPause
    case 4 => LaunchMail
    case 5 => LaunchMediaSelect
    case 6 => LaunchApp1
    case 7 => LaunchApp2
    case 10 => Semicolon
    case 11 => Equals
    case 12 => Comma
    case 13 => Minus
    case 14 => Period
    case 15 => Slash
    case _ => Unknown
  }

  /** Codes 0xC0 to 0xCF. */
  function FromVkRowC(lo: int): VirtualKey
  {
    match lo
    case 0 => BackTick
    case _ => Unknown
  }

  /** Codes 0xD0 to 0xDF. */
  function FromVkRowD(lo: int): VirtualKey
  {
    match lo
    case 11 => LeftBracket
    case 12 => Backslash
    case 13 => RightBracket
    case 14 => Quote
    case _ => Unknown
  }

  /** Row 0x00 to 0x0F of the table maps a code to `Unknown` or to the variant with that discriminant. */
  lemma FromVkRow0MatchesCode(lo: int)
    requires 0 <= lo < 16
    ensures FromVkRow0(lo) == Unknown || FromVkRow0(lo) == 0x00 + lo
  {
  }

  /** Row 0x10 to 0x1F of the table maps a code to `Unknown` or to the variant with that discriminant. */
  lemma FromVkRow1MatchesCode(lo: int)
    requires 0 <= lo < 16
    ensures FromVkRow1(lo) == Unknown || FromVkRow1(lo) == 0x10 + lo
  {
  }

  /** Row 0x20 to 0x2F of the table maps a code to `Unknown` or to the variant with that discriminant. */
  lemma FromVkRow2MatchesCode(lo: int)
    requires 0 <= lo < 16
    ensures FromVkRow2(lo) == Unknown || FromVkRow2(lo) == 0x20 + lo
  {
  }

  /** Row 0x30 to 0x3F of the table maps a code to `Unknown` or to the variant with that discriminant. */
  lemma FromVkRow3MatchesCode(lo: int)
    requires 0 <= lo < 16
    ensures FromVkRow3(lo) == Unknown || FromVkRow3(lo) == 0x30 + lo
  {
  }

  /** Row 0x40 to 0x4F of the table maps a code to `Unknown` or to the variant with that discriminant. */
  lemma FromVkRow4MatchesCode(lo: int)
    requires 0 <= lo < 16
    ensures FromVkRow4(lo) == Unknown || FromVkRow4(lo) == 0x40 + lo
  {
  }

  /** Row 0x50 to 0x5F of the table maps a code to `Unknown` or to the variant with that discriminant. */
  lemma FromVkRow5MatchesCode(lo: int)
    requires 0 <= lo < 16
    ensures FromVkRow5(lo) == Unknown || FromVkRow5(lo) == 0x50 + lo
  {
  }

  /** Row 0x60 to 0x6F of the table maps a code to `Unknown` or to the variant with that discriminant. */
  lemma FromVkRow6MatchesCode(lo: int)
    requires 0 <= lo < 16
    ensures FromVkRow6(lo) == Unknown || FromVkRow6(lo) == 0x60 + lo
  {
  }

  /** Row 0x70 to 0x7F of the table maps a code to `Unknown` or to the variant with that discriminant. */
  lemma FromVkRow7MatchesCode(lo: int)
    requires 0 <= lo < 16
    ensures FromVkRow7(lo) == Unknown || FromVkRow7(lo) == 0x70 + lo
  {
  }

  /** Row 0x80 to 0x8F of the table maps a code to `Unknown` or to the variant with that discriminant. */
  lemma FromVkRow8MatchesCode(lo: int)
    requires 0 <= lo < 16
    ensures FromVkRow8(lo) == Unknown || FromVkRow8(lo) == 0x80 + lo
  {
  }

  /** Row 0x90 to 0x9F of the table maps a code to `Unknown` or to the variant with that discriminant. */
  lemma FromVkRow9MatchesCode(lo: int)
    requires 0 <= lo < 16
    ensures FromVkRow9(lo) == Unknown || FromVkRow9(lo) == 0x90 + lo
  {
  }

  /** Row 0xA0 to 0xAF of the table maps a code to `Unknown` or to the variant with that discriminant. */
  lemma FromVkRowAMatchesCode(lo: int)
    requires 0 <= lo < 16
    ensures FromVkRowA(lo) == Unknown || FromVkRowA(lo) == 0xA0 + lo
  {
  }

  /** Row 0xB0 to 0xBF of the table maps a code to `Unknown` or to the variant with that discriminant. */
  lemma FromVkRowBMatchesCode(lo: int)
    requires 0 <= lo < 16
    ensures FromVkRowB(lo) == Unknown || FromVkRowB(lo) == 0xB0 + lo
  {
  }

  /** Row 0xC0 to 0xCF of the table maps a code to `Unknown` or to the variant with that discriminant. */
  lemma FromVkRowCMatchesCode(lo: int)
    requires 0 <= lo < 16
    ensures FromVkRowC(lo) == Unknown || FromVkRowC(lo) == 0xC0 + lo
  {
  }

  /** Row 0xD0 to 0xDF of the table maps a code to `Unknown` or to the variant with that discriminant. */
  lemma FromVkRowDMatchesCode(lo: int)
    requires 0 <= lo < 16
    ensures FromVkRowD(lo) == Unknown || FromVkRowD(lo) == 0xD0 + lo
  {
  }

  /** The variants whose discriminant lies in 0x00 to 0x0F are read back from it. */
  lemma FromVkOfCodeRow0(k: int)
    requires ListedRow0(k) && k != Unknown
    ensures FromVk(k) == k
  {
  }

  /** The variants whose discriminant lies in 0x10 to 0x1F are read back from it. */
  lemma FromVkOfCodeRow1(k: int)
    requires ListedRow1(k) && k != Unknown
    ensures FromVk(k) == k
  {
  }

  /** The variants whose discriminant lies in 0x20 to 0x2F are read back from it. */
  lemma FromVkOfCodeRow2(k: int)
    requires ListedRow2(k) && k != Unknown
    ensures FromVk(k) == k
  {
  }

  /** The variants whose discriminant lies in 0x30 to 0x3F are read back from it. */
  lemma FromVkOfCodeRow3(k: int)
    requires ListedRow3(k) && k != Unknown
    ensures FromVk(k) == k
  {
  }

  /** The variants whose discriminant lies in 0x40 to 0x4F are read back from it. */
  lemma FromVkOfCodeRow4(k: int)
    requires ListedRow4(k) && k != Unknown
    ensures FromVk(k) == k
  {
  }

  /** The variants whose discriminant lies in 0x50 to 0x5F are read back from it. */
  lemma FromVkOfCodeRow5(k: int)
    requires ListedRow5(k) && k != Unknown
    ensures FromVk(k) == k
  {
  }

  /** The variants whose discriminant lies in 0x60 to 0x6F are read back from it. */
  lemma FromVkOfCodeRow6(k: int)
    requires ListedRow6(k) && k != Unknown
    ensures FromVk(k) == k
  {
  }

  /** The variants whose discriminant lies in 0x70 to 0x7F are read back from it. */
  lemma FromVkOfCodeRow7(k: int)
    requires ListedRow7(k) && k != Unknown
    ensures FromVk(k) == k
  {
  }

  /** The variants whose discriminant lies in 0x80 to 0x8F are read back from it. */
  lemma FromVkOfCodeRow8(k: int)
    requires ListedRow8(k) && k != Unknown
    ensures FromVk(k) == k
  {
  }

  /** The variants whose discriminant lies in 0x90 to 0x9F are read back from it. */
  lemma FromVkOfCodeRow9(k: int)
    requires ListedRow9(k) && k != Unknown
    ensures FromVk(k) == k
  {
  }

  /** The variants whose discriminant lies in 0xA0 to 0xAF are read back from it. */
  lemma FromVkOfCodeRowA(k: int)
    requires ListedRowA(k) && k != Unknown
    ensures FromVk(k) == k
  {
  }

  /** The variants whose discriminant lies in 0xB0 to 0xBF are read back from it. */
  lemma FromVkOfCodeRowB(k: int)
    requires ListedRowB(k) && k != Unknown
    ensures FromVk(k) == k
  {
  }

  /** The variants whose discriminant lies in 0xC0 to 0xCF are read back from it. */
  lemma FromVkOfCodeRowC(k: int)
    requires ListedRowC(k) && k != Unknown
    ensures FromVk(k) == k
  {
  }

  /** The variants whose discriminant lies in 0xD0 to 0xDF are read back from it. */
  lemma FromVkOfCodeRowD(k: int)
    requires ListedRowD(k) && k != Unknown
    ensures FromVk(k) == k
  {
  }

  /** Reading back the discriminant of any variant but `Unknown` gives that variant. */
  lemma FromVkOfCode(k: VirtualKey)
    requires k != Unknown
    ensures FromVk(k) == k
  {
    assert Listed(k);
    if ListedRow0(k) {
      FromVkOfCodeRow0(k);
    } else if ListedRow1(k) {
      FromVkOfCodeRow1(k);
    } else if ListedRow2(k) {
      FromVkOfCodeRow2(k);
    } else if ListedRow3(k) {
      FromVkOfCodeRow3(k);
    } else if ListedRow4(k) {
      FromVkOfCodeRow4(k);
    } else if ListedRow5(k) {
      FromVkOfCodeRow5(k);
    } else if ListedRow6(k) {
      FromVkOfCodeRow6(k);
    } else if ListedRow7(k) {
      FromVkOfCodeRow7(k);
    } else if ListedRow8(k) {
      FromVkOfCodeRow8(k);
    } else if ListedRow9(k) {
      FromVkOfCodeRow9(k);
    } else if ListedRowA(k) {
      FromVkOfCodeRowA(k);
    } else if ListedRowB(k) {
      FromVkOfCodeRowB(k);
    } else if ListedRowC(k) {
      FromVkOfCodeRowC(k);
    } else {
      FromVkOfCodeRowD(k);
    }
  }

  /** Every code decodes either to `Unknown` or to the variant whose discriminant it is. */
  lemma CodeOfFromVk(vk: int)
    ensures FromVk(vk) == Unknown || FromVk(vk) == vk
  {
    if 0 <= vk <= 0xFF {
      match vk / 16
        case 0 => FromVkRow0MatchesCode(vk % 16);
        case 1 => FromVkRow1MatchesCode(vk % 16);
        case 2 => FromVkRow2MatchesCode(vk % 16);
        case 3 => FromVkRow3MatchesCode(vk % 16);
        case 4 => FromVkRow4MatchesCode(vk % 16);
        case 5 => FromVkRow5MatchesCode(vk % 16);
        case 6 => FromVkRow6MatchesCode(vk % 16);
        case 7 => FromVkRow7MatchesCode(vk % 16);
        case 8 => FromVkRow8MatchesCode(vk % 16);
        case 9 => FromVkRow9MatchesCode(vk % 16);
        case 10 => FromVkRowAMatchesCode(vk % 16);
        case 11 => FromVkRowBMatchesCode(vk % 16);
        case 12 => FromVkRowCMatchesCode(vk % 16);
        case 13 => FromVkRowDMatchesCode(vk % 16);
        case _ =>
    }
  }

  /** Distinct listed codes map to distinct variants. */
  lemma FromVkInjective(a: int, b: int)
    requires FromVk(a) != Unknown && FromVk(a) == FromVk(b)
    ensures a == b
  {
    CodeOfFromVk(a);
    CodeOfFromVk(b);
  }

  /** Codes missing from the table map to `Unknown`, among them gaps inside the ranges it covers. */
  lemma UnlistedCodesAreUnknown()
    ensures FromVk(0x0A) == Unknown && FromVk(0x5E) == Unknown && FromVk(0xE0) == Unknown
    ensures FromVk(0x00) == Unknown && FromVk(0x100) == Unknown && FromVk(-1) == Unknown
  {
  }

  const WM_KEYDOWN: int := 0x0100
  const WM_SYSKEYDOWN: int := 0x0104

  /** A decoded chord: the four modifiers and the key. */
  datatype Keys = Keys(shift: bool, ctrl: bool, alt: bool, win: bool, key: VirtualKey)

  /**
   * One hook call: `n_code`, the raw `w_param`, the `vkCode` and the `GetAsyncKeyState`
   * readings of `VK_SHIFT`, `VK_CONTROL`, `VK_MENU`, `VK_LWIN` and `VK_RWIN`.
   */
  datatype HookInput = HookInput(
    nCode: int,
    wParam: nat,
    vkCode: nat,
    shiftState: bv16,
    ctrlState: bv16,
    menuState: bv16,
    lwinState: bv16,
    rwinState: bv16)

  /** Bit 15 of a key-state reading: the key is down. */
  predicate IsDown(state: bv16)
  {
    state & (1 << 15) != 0
  }

  /** `w_param.0 as u32`: the message keeps the low 32 bits. */
  function Message(wParam: nat): (m: nat)
    ensures m < 0x1_0000_0000
    ensures wParam < 0x1_0000_0000 ==> m == wParam
  {
    wParam % 0x1_0000_0000
  }

  /**
   * `Keys::new`: no chord for a negative `n_code` or for a message other than a key-down;
   * otherwise the key from the table and each modifier from the top bit of its state
   * (either Windows key counting for `win`).
   */
  function New(input: HookInput): (r: Option<Keys>)
    ensures r.Some? <==> input.nCode >= 0 && (Message(input.wParam) == WM_KEYDOWN || Message(input.wParam) == WM_SYSKEYDOWN)
    ensures r.Some? ==> r.value.key == FromVk(input.vkCode)
    ensures r.Some? ==> (r.value.shift <==> input.shiftState >= 0x8000) && (r.value.ctrl <==> input.ctrlState >= 0x8000)
    ensures r.Some? ==> (r.value.alt <==> input.menuState >= 0x8000)
    ensures r.Some? ==> (r.value.win <==> input.lwinState >= 0x8000 || input.rwinState >= 0x8000)
  {
    if input.nCode >= 0 then
      var message := Message(input.wParam);
      if message == WM_KEYDOWN || message == WM_SYSKEYDOWN then
        Some(Keys(
          IsDown(input.shiftState),
          IsDown(input.ctrlState),
          IsDown(input.menuState),
          IsDown(input.lwinState) || IsDown(input.rwinState),
          FromVk(input.vkCode)))
      else
        None
    else
      None
  }

  /** Only the low 32 bits of `w_param` are looked at. */
  lemma NewIgnoresHighWParamBits(input: HookInput, k: nat)
    ensures New(input.(wParam := input.wParam + k * 0x1_0000_0000)) == New(input)
  {
    assert Message(input.wParam + k * 0x1_0000_0000) == Message(input.wParam);
  }

  /** The default binding of `ToggleFocusedWindowTiling`: Alt+T and no other modifier. */
  const DEFAULT_TOGGLE_KEYS: Keys := Keys(false, false, true, false, T)

  /** Pressing T (0x54) with only Alt down decodes to the default binding. */
  lemma AltTDecodesToDefaultBinding()
    ensures New(HookInput(0, WM_KEYDOWN, 0x54, 0, 0, 0x8000, 0, 0)) == Some(DEFAULT_TOGGLE_KEYS)
    ensures New(HookInput(0, WM_SYSKEYDOWN, 0x54, 0, 0, 0xFFFF, 0, 0)) == Some(DEFAULT_TOGGLE_KEYS)
  {
  }
}
