/** The Windows virtual-key codes of windows-keycode.h: the canonical key
    identities the keysym translator produces. The header only defines integer
    constants; they are declared here with the header's own names and values,
    followed by the facts about their layout that the translator relies on. */
module WindowsKeycode {

  /** The sentinel for a key that has no canonical code. */
  const VKEY_UNKNOWN := 0

  // POSIX-specific codes, placed in slots that Windows leaves unassigned.
  const VKEY_WLAN := 0x97
  const VKEY_POWER := 0x98
  const VKEY_BRIGHTNESS_DOWN := 0xD8
  const VKEY_BRIGHTNESS_UP := 0xD9
  const VKEY_KBD_BRIGHTNESS_DOWN := 0xDA
  const VKEY_KBD_BRIGHTNESS_UP := 0xE8

  // AltGr and Compose borrow unused Windows codes.
  const VKEY_ALTGR := 0xE1
  const VKEY_COMPOSE := 0xE6

  const VKEY_LBUTTON := 0x01
  const VKEY_RBUTTON := 0x02
  const VKEY_MBUTTON := 0x04
  const VKEY_XBUTTON1 := 0x05
  const VKEY_XBUTTON2 := 0x06

  const VKEY_BACK := 0x08
  const VKEY_TAB := 0x09
  const VKEY_CLEAR := 0x0C
  const VKEY_RETURN := 0x0D
  const VKEY_SHIFT := 0x10
  const VKEY_CONTROL := 0x11
  const VKEY_MENU := 0x12
  const VKEY_PAUSE := 0x13
  const VKEY_CAPITAL := 0x14
  // Kana/Hangul and Hanja/Kanji are deliberate aliases (same IME key).
  const VKEY_KANA := 0x15
  const VKEY_HANGUL := 0x15
  const VKEY_JUNJA := 0x17
  const VKEY_FINAL := 0x18
  const VKEY_HANJA := 0x19
  const VKEY_KANJI := 0x19
  const VKEY_ESCAPE := 0x1B
  const VKEY_CONVERT := 0x1C
  const VKEY_NONCONVERT := 0x1D
  const VKEY_ACCEPT := 0x1E
  const VKEY_MODECHANGE := 0x1F
  const VKEY_SPACE := 0x20
  const VKEY_PRIOR := 0x21
  const VKEY_NEXT := 0x22
  const VKEY_END := 0x23
  const VKEY_HOME := 0x24
  const VKEY_LEFT := 0x25
  const VKEY_UP := 0x26
  const VKEY_RIGHT := 0x27
  const VKEY_DOWN := 0x28
  const VKEY_SELECT := 0x29
  const VKEY_PRINT := 0x2A
  const VKEY_EXECUTE := 0x2B
  const VKEY_SNAPSHOT := 0x2C
  const VKEY_INSERT := 0x2D
  const VKEY_DELETE := 0x2E
  const VKEY_HELP := 0x2F

  const VKEY_0 := 0x30
  const VKEY_1 := 0x31
  const VKEY_2 := 0x32
  const VKEY_3 := 0x33
  const VKEY_4 := 0x34
  const VKEY_5 := 0x35
  const VKEY_6 := 0x36
  const VKEY_7 := 0x37
  const VKEY_8 := 0x38
  const VKEY_9 := 0x39
  const VKEY_A := 0x41
  const VKEY_B := 0x42
  const VKEY_C := 0x43
  const VKEY_D := 0x44
  const VKEY_E := 0x45
  const VKEY_F := 0x46
  const VKEY_G := 0x47
  const VKEY_H := 0x48
  const VKEY_I := 0x49
  const VKEY_J := 0x4A
  const VKEY_K := 0x4B
  const VKEY_L := 0x4C
  const VKEY_M := 0x4D
  const VKEY_N := 0x4E
  const VKEY_O := 0x4F
  const VKEY_P := 0x50
  const VKEY_Q := 0x51
  const VKEY_R := 0x52
  const VKEY_S := 0x53
  const VKEY_T := 0x54
  const VKEY_U := 0x55
  const VKEY_V := 0x56
  const VKEY_W := 0x57
  const VKEY_X := 0x58
  const VKEY_Y := 0x59
  const VKEY_Z := 0x5A

  const VKEY_LWIN := 0x5B
  const VKEY_RWIN := 0x5C
  const VKEY_APPS := 0x5D
  const VKEY_SLEEP := 0x5F

  const VKEY_NUMPAD0 := 0x60
  const VKEY_NUMPAD1 := 0x61
  const VKEY_NUMPAD2 := 0x62
  const VKEY_NUMPAD3 := 0x63
  const VKEY_NUMPAD4 := 0x64
  const VKEY_NUMPAD5 := 0x65
  const VKEY_NUMPAD6 := 0x66
  const VKEY_NUMPAD7 := 0x67
  const VKEY_NUMPAD8 := 0x68
  const VKEY_NUMPAD9 := 0x69
  const VKEY_MULTIPLY := 0x6A
  const VKEY_ADD := 0x6B
  const VKEY_SEPARATOR := 0x6C
  const VKEY_SUBTRACT := 0x6D
  const VKEY_DECIMAL := 0x6E
  const VKEY_DIVIDE := 0x6F

  const VKEY_F1 := 0x70
  const VKEY_F2 := 0x71
  const VKEY_F3 := 0x72
  const VKEY_F4 := 0x73
  const VKEY_F5 := 0x74
  const VKEY_F6 := 0x75
  const VKEY_F7 := 0x76
  const VKEY_F8 := 0x77
  const VKEY_F9 := 0x78
  const VKEY_F10 := 0x79
  const VKEY_F11 := 0x7A
  const VKEY_F12 := 0x7B
  const VKEY_F13 := 0x7C
  const VKEY_F14 := 0x7D
  const VKEY_F15 := 0x7E
  const VKEY_F16 := 0x7F
  const VKEY_F17 := 0x80
  const VKEY_F18 := 0x81
  const VKEY_F19 := 0x82
  const VKEY_F20 := 0x83
  const VKEY_F21 := 0x84
  const VKEY_F22 := 0x85
  const VKEY_F23 := 0x86
  const VKEY_F24 := 0x87

  const VKEY_NUMLOCK := 0x90
  const VKEY_SCROLL := 0x91
  const VKEY_LSHIFT := 0xA0
  const VKEY_RSHIFT := 0xA1
  const VKEY_LCONTROL := 0xA2
  const VKEY_RCONTROL := 0xA3
  const VKEY_LMENU := 0xA4
  const VKEY_RMENU := 0xA5

  const VKEY_BROWSER_BACK := 0xA6
  const VKEY_BROWSER_FORWARD := 0xA7
  const VKEY_BROWSER_REFRESH := 0xA8
  const VKEY_BROWSER_STOP := 0xA9
  const VKEY_BROWSER_SEARCH := 0xAA
  const VKEY_BROWSER_FAVORITES := 0xAB
  const VKEY_BROWSER_HOME := 0xAC
  const VKEY_VOLUME_MUTE := 0xAD
  const VKEY_VOLUME_DOWN := 0xAE
  const VKEY_VOLUME_UP := 0xAF
  const VKEY_MEDIA_NEXT_TRACK := 0xB0
  const VKEY_MEDIA_PREV_TRACK := 0xB1
  const VKEY_MEDIA_STOP := 0xB2
  const VKEY_MEDIA_PLAY_PAUSE := 0xB3
  const VKEY_MEDIA_LAUNCH_MAIL := 0xB4
  const VKEY_MEDIA_LAUNCH_MEDIA_SELECT := 0xB5
  const VKEY_MEDIA_LAUNCH_APP1 := 0xB6
  const VKEY_MEDIA_LAUNCH_APP2 := 0xB7

  const VKEY_OEM_1 := 0xBA
  const VKEY_OEM_PLUS := 0xBB
  const VKEY_OEM_COMMA := 0xBC
  const VKEY_OEM_MINUS := 0xBD
  const VKEY_OEM_PERIOD := 0xBE
  const VKEY_OEM_2 := 0xBF
  const VKEY_OEM_3 := 0xC0
  const VKEY_OEM_4 := 0xDB
  const VKEY_OEM_5 := 0xDC
  const VKEY_OEM_6 := 0xDD
  const VKEY_OEM_7 := 0xDE
  const VKEY_OEM_8 := 0xDF
  const VKEY_OEM_102 := 0xE2

  const VKEY_OEM_BACKTAB := 0xF5
  const VKEY_OEM_FJ_TOUROKU := 0x94
  const VKEY_OEM_FJ_MASSHOU := 0x93
  const VKEY_PROCESSKEY := 0xE5
  const VKEY_PACKET := 0xE7

  const VKEY_ATTN := 0xF6
  const VKEY_CRSEL := 0xF7
  const VKEY_EXSEL := 0xF8
  const VKEY_EREOF := 0xF9
  const VKEY_PLAY := 0xFA
  const VKEY_ZOOM := 0xFB
  const VKEY_NONAME := 0xFC
  const VKEY_PA1 := 0xFD
  const VKEY_OEM_CLEAR := 0xFE

  // The codes the header defines other than VKEY_UNKNOWN, by header section.
  const PosixAndBorrowedCodes: set<int> := {
    VKEY_WLAN, VKEY_POWER, VKEY_BRIGHTNESS_DOWN, VKEY_BRIGHTNESS_UP,
    VKEY_KBD_BRIGHTNESS_DOWN, VKEY_KBD_BRIGHTNESS_UP, VKEY_ALTGR, VKEY_COMPOSE
  }
  const ControlCodes: set<int> := {
    VKEY_LBUTTON, VKEY_RBUTTON, VKEY_MBUTTON, VKEY_XBUTTON1, VKEY_XBUTTON2,
    VKEY_BACK, VKEY_TAB, VKEY_CLEAR, VKEY_RETURN, VKEY_SHIFT, VKEY_CONTROL,
    VKEY_MENU, VKEY_PAUSE, VKEY_CAPITAL, VKEY_KANA, VKEY_HANGUL, VKEY_JUNJA,
    VKEY_FINAL, VKEY_HANJA, VKEY_KANJI, VKEY_ESCAPE, VKEY_CONVERT,
    VKEY_NONCONVERT, VKEY_ACCEPT, VKEY_MODECHANGE, VKEY_SPACE, VKEY_PRIOR,
    VKEY_NEXT, VKEY_END, VKEY_HOME, VKEY_LEFT, VKEY_UP, VKEY_RIGHT, VKEY_DOWN,
    VKEY_SELECT, VKEY_PRINT, VKEY_EXECUTE, VKEY_SNAPSHOT, VKEY_INSERT,
    VKEY_DELETE, VKEY_HELP
  }
  const AlphanumericCodes: set<int> := {
    VKEY_0, VKEY_1, VKEY_2, VKEY_3, VKEY_4, VKEY_5, VKEY_6, VKEY_7, VKEY_8, VKEY_9,
    VKEY_A, VKEY_B, VKEY_C, VKEY_D, VKEY_E, VKEY_F, VKEY_G, VKEY_H, VKEY_I,
    VKEY_J, VKEY_K, VKEY_L, VKEY_M, VKEY_N, VKEY_O, VKEY_P, VKEY_Q, VKEY_R,
    VKEY_S, VKEY_T, VKEY_U, VKEY_V, VKEY_W, VKEY_X, VKEY_Y, VKEY_Z,
    VKEY_LWIN, VKEY_RWIN, VKEY_APPS, VKEY_SLEEP
  }
  const KeypadAndFunctionCodes: set<int> := {
    VKEY_NUMPAD0, VKEY_NUMPAD1, VKEY_NUMPAD2, VKEY_NUMPAD3, VKEY_NUMPAD4,
    VKEY_NUMPAD5, VKEY_NUMPAD6, VKEY_NUMPAD7, VKEY_NUMPAD8, VKEY_NUMPAD9,
    VKEY_MULTIPLY, VKEY_ADD, VKEY_SEPARATOR, VKEY_SUBTRACT, VKEY_DECIMAL,
    VKEY_DIVIDE,
    VKEY_F1, VKEY_F2, VKEY_F3, VKEY_F4, VKEY_F5, VKEY_F6, VKEY_F7, VKEY_F8,
    VKEY_F9, VKEY_F10, VKEY_F11, VKEY_F12, VKEY_F13, VKEY_F14, VKEY_F15,
    VKEY_F16, VKEY_F17, VKEY_F18, VKEY_F19, VKEY_F20, VKEY_F21, VKEY_F22,
    VKEY_F23, VKEY_F24
  }
  const ExtendedCodes: set<int> := {
    VKEY_NUMLOCK, VKEY_SCROLL, VKEY_LSHIFT, VKEY_RSHIFT, VKEY_LCONTROL,
    VKEY_RCONTROL, VKEY_LMENU, VKEY_RMENU,
    VKEY_BROWSER_BACK, VKEY_BROWSER_FORWARD, VKEY_BROWSER_REFRESH,
    VKEY_BROWSER_STOP, VKEY_BROWSER_SEARCH, VKEY_BROWSER_FAVORITES,
    VKEY_BROWSER_HOME, VKEY_VOLUME_MUTE, VKEY_VOLUME_DOWN, VKEY_VOLUME_UP,
    VKEY_MEDIA_NEXT_TRACK, VKEY_MEDIA_PREV_TRACK, VKEY_MEDIA_STOP,
    VKEY_MEDIA_PLAY_PAUSE, VKEY_MEDIA_LAUNCH_MAIL, VKEY_MEDIA_LAUNCH_MEDIA_SELECT,
    VKEY_MEDIA_LAUNCH_APP1, VKEY_MEDIA_LAUNCH_APP2
  }
  const OemCodes: set<int> := {
    VKEY_OEM_1, VKEY_OEM_PLUS, VKEY_OEM_COMMA, VKEY_OEM_MINUS, VKEY_OEM_PERIOD,
    VKEY_OEM_2, VKEY_OEM_3, VKEY_OEM_4, VKEY_OEM_5, VKEY_OEM_6, VKEY_OEM_7,
    VKEY_OEM_8, VKEY_OEM_102, VKEY_OEM_BACKTAB, VKEY_OEM_FJ_TOUROKU,
    VKEY_OEM_FJ_MASSHOU, VKEY_PROCESSKEY, VKEY_PACKET,
    VKEY_ATTN, VKEY_CRSEL, VKEY_EXSEL, VKEY_EREOF, VKEY_PLAY, VKEY_ZOOM,
    VKEY_NONAME, VKEY_PA1, VKEY_OEM_CLEAR
  }

  /** Every code the header defines other than VKEY_UNKNOWN. */
  const DefinedCodes: set<int> :=
    PosixAndBorrowedCodes + ControlCodes + AlphanumericCodes
    + KeypadAndFunctionCodes + ExtendedCodes + OemCodes

  /** A canonical code fits the one-byte Windows virtual-key space. */
  predicate IsKeyCode(c: int) {
    VKEY_UNKNOWN <= c <= 0xFE
  }

  /** Every code of a section is a nonzero one-byte code. */
  predicate NonzeroBytes(codes: set<int>) {
    forall c :: c in codes ==> VKEY_UNKNOWN < c <= 0xFE
  }

  lemma PosixAndBorrowedCodesInRange() ensures NonzeroBytes(PosixAndBorrowedCodes) {}
  lemma ControlCodesInRange() ensures NonzeroBytes(ControlCodes) {}
  lemma AlphanumericCodesInRange() ensures NonzeroBytes(AlphanumericCodes) {}
  lemma KeypadAndFunctionCodesInRange() ensures NonzeroBytes(KeypadAndFunctionCodes) {}
  lemma ExtendedCodesInRange() ensures NonzeroBytes(ExtendedCodes) {}
  lemma OemCodesInRange() ensures NonzeroBytes(OemCodes) {}

  /** Every defined code is a nonzero one-byte code: only VKEY_UNKNOWN is 0. */
  lemma DefinedCodesAreNonzeroBytes()
    ensures NonzeroBytes(DefinedCodes)
  {
    PosixAndBorrowedCodesInRange();
    ControlCodesInRange();
    AlphanumericCodesInRange();
    KeypadAndFunctionCodesInRange();
    ExtendedCodesInRange();
    OemCodesInRange();
    var low := PosixAndBorrowedCodes + ControlCodes + AlphanumericCodes;
    var high := KeypadAndFunctionCodes + ExtendedCodes + OemCodes;
    NonzeroBytesUnion(PosixAndBorrowedCodes, ControlCodes);
    NonzeroBytesUnion(PosixAndBorrowedCodes + ControlCodes, AlphanumericCodes);
    NonzeroBytesUnion(low, KeypadAndFunctionCodes);
    NonzeroBytesUnion(low + KeypadAndFunctionCodes, ExtendedCodes);
    NonzeroBytesUnion(low + KeypadAndFunctionCodes + ExtendedCodes, OemCodes);
  }

  lemma NonzeroBytesUnion(a: set<int>, b: set<int>)
    requires NonzeroBytes(a) && NonzeroBytes(b)
    ensures NonzeroBytes(a + b)
  {
  }

  /** VKEY_0..VKEY_9 are the consecutive values 0x30..0x39. */
  lemma DigitCodesConsecutive()
    ensures [VKEY_0, VKEY_1, VKEY_2, VKEY_3, VKEY_4, VKEY_5, VKEY_6, VKEY_7, VKEY_8, VKEY_9]
         == seq(10, k => 0x30 + k)
  {
  }

  /** VKEY_A..VKEY_Z are the consecutive values 0x41..0x5A. */
  lemma LetterCodesConsecutive()
    ensures [VKEY_A, VKEY_B, VKEY_C, VKEY_D, VKEY_E, VKEY_F, VKEY_G, VKEY_H, VKEY_I,
             VKEY_J, VKEY_K, VKEY_L, VKEY_M, VKEY_N, VKEY_O, VKEY_P, VKEY_Q, VKEY_R,
             VKEY_S, VKEY_T, VKEY_U, VKEY_V, VKEY_W, VKEY_X, VKEY_Y, VKEY_Z]
         == seq(26, k => 0x41 + k)
  {
  }

  /** VKEY_NUMPAD0..VKEY_NUMPAD9 are 0x60..0x69, disjoint from the main-block digits. */
  lemma NumpadCodesConsecutive()
    ensures [VKEY_NUMPAD0, VKEY_NUMPAD1, VKEY_NUMPAD2, VKEY_NUMPAD3, VKEY_NUMPAD4,
             VKEY_NUMPAD5, VKEY_NUMPAD6, VKEY_NUMPAD7, VKEY_NUMPAD8, VKEY_NUMPAD9]
         == seq(10, k => 0x60 + k)
    ensures VKEY_9 < VKEY_NUMPAD0
  {
  }

  /** VKEY_F1..VKEY_F24 are the consecutive values 0x70..0x87. */
  lemma FunctionKeyCodesConsecutive()
    ensures [VKEY_F1, VKEY_F2, VKEY_F3, VKEY_F4, VKEY_F5, VKEY_F6, VKEY_F7, VKEY_F8,
             VKEY_F9, VKEY_F10, VKEY_F11, VKEY_F12, VKEY_F13, VKEY_F14, VKEY_F15,
             VKEY_F16, VKEY_F17, VKEY_F18, VKEY_F19, VKEY_F20, VKEY_F21, VKEY_F22,
             VKEY_F23, VKEY_F24]
         == seq(24, k => 0x70 + k)
    ensures VKEY_NUMPAD9 < VKEY_F1
  {
  }

  /** The slots that Windows leaves unassigned (0x97-0x9F, 0xD8-0xDA, 0xE8). */
  predicate UnassignedOnWindows(c: int) {
    (0x97 <= c <= 0x9F) || (0xD8 <= c <= 0xDA) || c == 0xE8
  }

  /** The codes the header defines for POSIX keys only. */
  const PosixOnlyCodes: set<int> := {
    VKEY_WLAN, VKEY_POWER, VKEY_BRIGHTNESS_DOWN, VKEY_BRIGHTNESS_UP,
    VKEY_KBD_BRIGHTNESS_DOWN, VKEY_KBD_BRIGHTNESS_UP
  }

  /** No code of a section sits in a Windows-unassigned slot. */
  predicate OutsideUnassignedSlots(codes: set<int>) {
    forall c :: c in codes ==> !UnassignedOnWindows(c)
  }

  lemma ControlCodesAssigned() ensures OutsideUnassignedSlots(ControlCodes) {}
  lemma AlphanumericCodesAssigned() ensures OutsideUnassignedSlots(AlphanumericCodes) {}
  lemma KeypadAndFunctionCodesAssigned() ensures OutsideUnassignedSlots(KeypadAndFunctionCodes) {}
  lemma ExtendedCodesAssigned() ensures OutsideUnassignedSlots(ExtendedCodes) {}
  lemma OemCodesAssigned() ensures OutsideUnassignedSlots(OemCodes) {}

  /** The POSIX-only codes sit exactly in the Windows-unassigned slots: each of
      them is in such a slot, and no other defined code is. */
  lemma PosixCodesUseUnassignedSlots()
    ensures forall c :: c in PosixOnlyCodes ==> UnassignedOnWindows(c)
    ensures forall c :: c in DefinedCodes && UnassignedOnWindows(c) ==> c in PosixOnlyCodes
  {
    ControlCodesAssigned();
    AlphanumericCodesAssigned();
    KeypadAndFunctionCodesAssigned();
    ExtendedCodesAssigned();
    OemCodesAssigned();
  }

  /** The IME aliases, and the unused codes borrowed for AltGr and Compose. */
  lemma AliasedAndBorrowedCodes()
    ensures VKEY_KANA == VKEY_HANGUL == 0x15 && VKEY_HANJA == VKEY_KANJI == 0x19
    ensures VKEY_ALTGR == 0xE1 && VKEY_COMPOSE == 0xE6
  {
  }
}
