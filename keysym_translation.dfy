/** KeyboardCodeFromXKeysym: the total translation from an X11 keysym to the
    Windows virtual-key code that the embedded engine expects.

    The source is one `switch` whose case labels are pairwise distinct; the
    model keeps every case and its result, grouped by keysym block (Latin-1,
    the 0xFDxx-0xFFxx function block, the XFree86 vendor block). Because the
    labels are distinct, the grouping does not change which case a keysym
    selects. A keysym no case names falls through to VKEY_UNKNOWN. */
module KeysymTranslation {
  import opened WindowsKeycode
  import opened XKeysym

  /** The translator: total, and always a one-byte canonical code. */
  function KeyboardCodeFromXKeysym(keysym: nat): (code: int)
    ensures IsKeyCode(code)
  {
    if keysym < 0x100 then LatinKeyCode(keysym)
    else if keysym < 0x1_0000 then FunctionBlockKeyCode(keysym)
    else VendorKeyCode(keysym)
  }

  /** The cases whose labels are Latin-1 keysyms (below 0x100). */
  function LatinKeyCode(keysym: nat): (code: int)
    ensures IsKeyCode(code)
  {
    if keysym == XK_space then VKEY_SPACE
    else if keysym == XK_A || keysym == XK_a then VKEY_A
    else if keysym == XK_B || keysym == XK_b then VKEY_B
    else if keysym == XK_C || keysym == XK_c then VKEY_C
    else if keysym == XK_D || keysym == XK_d then VKEY_D
    else if keysym == XK_E || keysym == XK_e then VKEY_E
    else if keysym == XK_F || keysym == XK_f then VKEY_F
    else if keysym == XK_G || keysym == XK_g then VKEY_G
    else if keysym == XK_H || keysym == XK_h then VKEY_H
    else if keysym == XK_I || keysym == XK_i then VKEY_I
    else if keysym == XK_J || keysym == XK_j then VKEY_J
    else if keysym == XK_K || keysym == XK_k then VKEY_K
    else if keysym == XK_L || keysym == XK_l then VKEY_L
    else if keysym == XK_M || keysym == XK_m then VKEY_M
    else if keysym == XK_N || keysym == XK_n then VKEY_N
    else if keysym == XK_O || keysym == XK_o then VKEY_O
    else if keysym == XK_P || keysym == XK_p then VKEY_P
    else if keysym == XK_Q || keysym == XK_q then VKEY_Q
    else if keysym == XK_R || keysym == XK_r then VKEY_R
    else if keysym == XK_S || keysym == XK_s then VKEY_S
    else if keysym == XK_T || keysym == XK_t then VKEY_T
    else if keysym == XK_U || keysym == XK_u then VKEY_U
    else if keysym == XK_V || keysym == XK_v then VKEY_V
    else if keysym == XK_W || keysym == XK_w then VKEY_W
    else if keysym == XK_X || keysym == XK_x then VKEY_X
    else if keysym == XK_Y || keysym == XK_y then VKEY_Y
    else if keysym == XK_Z || keysym == XK_z then VKEY_Z
    // The ten labels XK_0..XK_9 share one return, by offset from XK_0.
    else if XK_0 <= keysym <= XK_9 then VKEY_0 + (keysym - XK_0)
    // Shifted digit symbols map to the unshifted digit's key.
    else if keysym == XK_parenright then VKEY_0
    else if keysym == XK_exclam then VKEY_1
    else if keysym == XK_at then VKEY_2
    else if keysym == XK_numbersign then VKEY_3
    else if keysym == XK_dollar then VKEY_4
    else if keysym == XK_percent then VKEY_5
    else if keysym == XK_asciicircum then VKEY_6
    else if keysym == XK_ampersand then VKEY_7
    else if keysym == XK_asterisk then VKEY_8
    else if keysym == XK_parenleft then VKEY_9
    else if keysym == XK_multiply then VKEY_MULTIPLY
    else if keysym == XK_equal || keysym == XK_plus then VKEY_OEM_PLUS
    else if keysym == XK_comma || keysym == XK_less then VKEY_OEM_COMMA
    else if keysym == XK_minus || keysym == XK_underscore then VKEY_OEM_MINUS
    else if keysym == XK_greater || keysym == XK_period then VKEY_OEM_PERIOD
    else if keysym == XK_colon || keysym == XK_semicolon then VKEY_OEM_1
    else if keysym == XK_question || keysym == XK_slash then VKEY_OEM_2
    else if keysym == XK_asciitilde || keysym == XK_quoteleft then VKEY_OEM_3
    else if keysym == XK_bracketleft || keysym == XK_braceleft then VKEY_OEM_4
    else if keysym == XK_backslash || keysym == XK_bar then VKEY_OEM_5
    else if keysym == XK_bracketright || keysym == XK_braceright then VKEY_OEM_6
    else if keysym == XK_quoteright || keysym == XK_quotedbl then VKEY_OEM_7
    else if keysym == XK_guillemotleft || keysym == XK_guillemotright || keysym == XK_degree
         || keysym == XK_ugrave || keysym == XK_Ugrave || keysym == XK_brokenbar
    then VKEY_OEM_102
    else VKEY_UNKNOWN
  }

  /** The cases whose labels lie in the 0xFD00-0xFFFF function block. */
  function FunctionBlockKeyCode(keysym: nat): (code: int)
    ensures IsKeyCode(code)
  {
    if keysym == XK_BackSpace then VKEY_BACK
    else if keysym == XK_Delete || keysym == XK_KP_Delete then VKEY_DELETE
    else if keysym == XK_Tab || keysym == XK_KP_Tab || keysym == XK_ISO_Left_Tab
         || keysym == XK_3270_BackTab
    then VKEY_TAB
    else if keysym == XK_Linefeed || keysym == XK_Return || keysym == XK_KP_Enter
         || keysym == XK_ISO_Enter
    then VKEY_RETURN
    else if keysym == XK_Clear || keysym == XK_KP_Begin then VKEY_CLEAR
    else if keysym == XK_KP_Space then VKEY_SPACE
    else if keysym == XK_Home || keysym == XK_KP_Home then VKEY_HOME
    else if keysym == XK_End || keysym == XK_KP_End then VKEY_END
    else if keysym == XK_Page_Up || keysym == XK_KP_Page_Up then VKEY_PRIOR
    else if keysym == XK_Page_Down || keysym == XK_KP_Page_Down then VKEY_NEXT
    else if keysym == XK_Left || keysym == XK_KP_Left then VKEY_LEFT
    else if keysym == XK_Right || keysym == XK_KP_Right then VKEY_RIGHT
    else if keysym == XK_Down || keysym == XK_KP_Down then VKEY_DOWN
    else if keysym == XK_Up || keysym == XK_KP_Up then VKEY_UP
    else if keysym == XK_Escape then VKEY_ESCAPE
    else if keysym == XK_Kana_Lock || keysym == XK_Kana_Shift then VKEY_KANA
    else if keysym == XK_Hangul then VKEY_HANGUL
    else if keysym == XK_Hangul_Hanja then VKEY_HANJA
    else if keysym == XK_Kanji then VKEY_KANJI
    else if keysym == XK_Henkan then VKEY_CONVERT
    else if keysym == XK_Muhenkan then VKEY_NONCONVERT
    // The ten labels XK_KP_0..XK_KP_9 share one return, by offset from XK_KP_0.
    else if XK_KP_0 <= keysym <= XK_KP_9 then VKEY_NUMPAD0 + (keysym - XK_KP_0)
    else if keysym == XK_KP_Multiply then VKEY_MULTIPLY
    else if keysym == XK_KP_Add then VKEY_ADD
    else if keysym == XK_KP_Separator then VKEY_SEPARATOR
    else if keysym == XK_KP_Subtract then VKEY_SUBTRACT
    else if keysym == XK_KP_Decimal then VKEY_DECIMAL
    else if keysym == XK_KP_Divide then VKEY_DIVIDE
    else if keysym == XK_KP_Equal then VKEY_OEM_PLUS
    else if keysym == XK_ISO_Level5_Shift then VKEY_OEM_8
    else if keysym == XK_Shift_L || keysym == XK_Shift_R then VKEY_SHIFT
    else if keysym == XK_Control_L || keysym == XK_Control_R then VKEY_CONTROL
    else if keysym == XK_Meta_L || keysym == XK_Meta_R || keysym == XK_Alt_L
         || keysym == XK_Alt_R
    then VKEY_MENU
    else if keysym == XK_ISO_Level3_Shift then VKEY_ALTGR
    else if keysym == XK_Multi_key then VKEY_COMPOSE
    else if keysym == XK_Pause then VKEY_PAUSE
    else if keysym == XK_Caps_Lock then VKEY_CAPITAL
    else if keysym == XK_Num_Lock then VKEY_NUMLOCK
    else if keysym == XK_Scroll_Lock then VKEY_SCROLL
    else if keysym == XK_Select then VKEY_SELECT
    else if keysym == XK_Print then VKEY_PRINT
    else if keysym == XK_Execute then VKEY_EXECUTE
    else if keysym == XK_Insert || keysym == XK_KP_Insert then VKEY_INSERT
    else if keysym == XK_Help then VKEY_HELP
    else if keysym == XK_Super_L then VKEY_LWIN
    else if keysym == XK_Super_R then VKEY_RWIN
    else if keysym == XK_Menu then VKEY_APPS
    // The 24 labels XK_F1..XK_F24 share one return, by offset from XK_F1.
    else if XK_F1 <= keysym <= XK_F24 then VKEY_F1 + (keysym - XK_F1)
    // The four labels XK_KP_F1..XK_KP_F4, by offset from XK_KP_F1.
    else if XK_KP_F1 <= keysym <= XK_KP_F4 then VKEY_F1 + (keysym - XK_KP_F1)
    else VKEY_UNKNOWN
  }

  /** The cases whose labels are XFree86 vendor keysyms. */
  function VendorKeyCode(keysym: nat): (code: int)
    ensures IsKeyCode(code)
  {
    // Ergonomic-keyboard keysyms that evdev produces for F13-F18.
    if keysym == XF86XK_Tools then VKEY_F13
    else if keysym == XF86XK_Launch5 then VKEY_F14
    else if keysym == XF86XK_Launch6 then VKEY_F15
    else if keysym == XF86XK_Launch7 then VKEY_F16
    else if keysym == XF86XK_Launch8 then VKEY_F17
    else if keysym == XF86XK_Launch9 then VKEY_F18
    // Browser keys deliberately reported as unknown.
    else if keysym == XF86XK_Refresh || keysym == XF86XK_History || keysym == XF86XK_OpenURL
         || keysym == XF86XK_AddFavorite || keysym == XF86XK_Go || keysym == XF86XK_ZoomIn
         || keysym == XF86XK_ZoomOut
    then VKEY_UNKNOWN
    else if keysym == XF86XK_Back then VKEY_BROWSER_BACK
    else if keysym == XF86XK_Forward then VKEY_BROWSER_FORWARD
    else if keysym == XF86XK_Reload then VKEY_BROWSER_REFRESH
    else if keysym == XF86XK_Stop then VKEY_BROWSER_STOP
    else if keysym == XF86XK_Search then VKEY_BROWSER_SEARCH
    else if keysym == XF86XK_Favorites then VKEY_BROWSER_FAVORITES
    else if keysym == XF86XK_HomePage then VKEY_BROWSER_HOME
    else if keysym == XF86XK_AudioMute then VKEY_VOLUME_MUTE
    else if keysym == XF86XK_AudioLowerVolume then VKEY_VOLUME_DOWN
    else if keysym == XF86XK_AudioRaiseVolume then VKEY_VOLUME_UP
    else if keysym == XF86XK_AudioNext then VKEY_MEDIA_NEXT_TRACK
    else if keysym == XF86XK_AudioPrev then VKEY_MEDIA_PREV_TRACK
    else if keysym == XF86XK_AudioStop then VKEY_MEDIA_STOP
    else if keysym == XF86XK_AudioPlay then VKEY_MEDIA_PLAY_PAUSE
    else if keysym == XF86XK_Mail then VKEY_MEDIA_LAUNCH_MAIL
    else if keysym == XF86XK_LaunchA then VKEY_MEDIA_LAUNCH_APP1
    else if keysym == XF86XK_LaunchB || keysym == XF86XK_Calculator then VKEY_MEDIA_LAUNCH_APP2
    else if keysym == XF86XK_WLAN then VKEY_WLAN
    else if keysym == XF86XK_PowerOff then VKEY_POWER
    else if keysym == XF86XK_MonBrightnessDown then VKEY_BRIGHTNESS_DOWN
    else if keysym == XF86XK_MonBrightnessUp then VKEY_BRIGHTNESS_UP
    else if keysym == XF86XK_KbdBrightnessDown then VKEY_KBD_BRIGHTNESS_DOWN
    else if keysym == XF86XK_KbdBrightnessUp then VKEY_KBD_BRIGHTNESS_UP
    else VKEY_UNKNOWN
  }

  // ---------------------------------------------------------------------------
  // Range properties: the offsets the switch computes stay inside their bands.

  /** XK_A..XK_Z map by offset onto VKEY_A..VKEY_Z. */
  lemma UpperLettersMapByOffset(k: nat)
    requires k < 26
    ensures KeyboardCodeFromXKeysym(XK_A + k) == VKEY_A + k
  {
  }

  /** XK_a..XK_z map by offset onto VKEY_A..VKEY_Z. */
  lemma LowerLettersMapByOffset(k: nat)
    requires k < 26
    ensures KeyboardCodeFromXKeysym(XK_a + k) == VKEY_A + k
  {
  }

  /** Upper- and lower-case letter keysyms fold to the same VKEY_A..VKEY_Z code. */
  lemma LetterCaseFolds(k: nat)
    requires k < 26
    ensures KeyboardCodeFromXKeysym(XK_A + k) == VKEY_A + k
    ensures KeyboardCodeFromXKeysym(XK_a + k) == VKEY_A + k
  {
    UpperLettersMapByOffset(k);
    LowerLettersMapByOffset(k);
  }

  /** XK_0..XK_9 map by offset onto VKEY_0..VKEY_9. */
  lemma DigitsMapByOffset(k: nat)
    requires k < 10
    ensures KeyboardCodeFromXKeysym(XK_0 + k) == VKEY_0 + k
    ensures VKEY_0 <= VKEY_0 + k <= VKEY_9
  {
  }

  /** XK_KP_0..XK_KP_9 map by offset onto VKEY_NUMPAD0..VKEY_NUMPAD9, a band
      disjoint from the main-block digit codes. */
  lemma KeypadDigitsMapByOffset(j: nat, k: nat)
    requires j < 10 && k < 10
    ensures KeyboardCodeFromXKeysym(XK_KP_0 + k) == VKEY_NUMPAD0 + k
    ensures VKEY_NUMPAD0 <= VKEY_NUMPAD0 + k <= VKEY_NUMPAD9
    ensures KeyboardCodeFromXKeysym(XK_KP_0 + k) != KeyboardCodeFromXKeysym(XK_0 + j)
  {
  }

  /** XK_F1..XK_F24 map by offset onto VKEY_F1..VKEY_F24. */
  lemma FunctionKeysMapByOffset(k: nat)
    requires k < 24
    ensures KeyboardCodeFromXKeysym(XK_F1 + k) == VKEY_F1 + k
    ensures VKEY_F1 <= VKEY_F1 + k <= VKEY_F24
  {
  }

  /** XK_KP_F1..XK_KP_F4 map onto the same codes as XK_F1..XK_F4. */
  lemma KeypadFunctionKeysMapByOffset(k: nat)
    requires k < 4
    ensures KeyboardCodeFromXKeysym(XK_KP_F1 + k) == VKEY_F1 + k
    ensures KeyboardCodeFromXKeysym(XK_KP_F1 + k) == KeyboardCodeFromXKeysym(XK_F1 + k)
  {
  }

  /** The symbols on the shifted digit keys of a US layout, indexed by digit:
      `)` `!` `@` `#` `$` `%` `^` `&` `*` `(`. */
  const ShiftedDigitKeysyms: seq<nat> := [
    XK_parenright, XK_exclam, XK_at, XK_numbersign, XK_dollar,
    XK_percent, XK_asciicircum, XK_ampersand, XK_asterisk, XK_parenleft
  ]

  /** A shifted digit symbol maps to the unshifted digit's code. */
  lemma ShiftedDigitsMapToDigit(d: nat)
    requires d < 10
    ensures KeyboardCodeFromXKeysym(ShiftedDigitKeysyms[d]) == KeyboardCodeFromXKeysym(XK_0 + d)
    ensures KeyboardCodeFromXKeysym(ShiftedDigitKeysyms[d]) == VKEY_0 + d
  {
    DigitsMapByOffset(d);
  }

  // ---------------------------------------------------------------------------
  // Totality: which keysyms fall back to VKEY_UNKNOWN.

  /** The keysyms the switch names, Latin-1 block. */
  predicate IsLatinCaseLabel(keysym: nat) {
    || keysym == XK_space
    || XK_A <= keysym <= XK_Z || XK_a <= keysym <= XK_z || XK_0 <= keysym <= XK_9
    || keysym == XK_parenright || keysym == XK_exclam || keysym == XK_at
    || keysym == XK_numbersign || keysym == XK_dollar || keysym == XK_percent
    || keysym == XK_asciicircum || keysym == XK_ampersand || keysym == XK_asterisk
    || keysym == XK_parenleft || keysym == XK_multiply
    || keysym == XK_equal || keysym == XK_plus || keysym == XK_comma || keysym == XK_less
    || keysym == XK_minus || keysym == XK_underscore || keysym == XK_greater
    || keysym == XK_period || keysym == XK_colon || keysym == XK_semicolon
    || keysym == XK_question || keysym == XK_slash || keysym == XK_asciitilde
    || keysym == XK_quoteleft || keysym == XK_bracketleft || keysym == XK_braceleft
    || keysym == XK_backslash || keysym == XK_bar || keysym == XK_bracketright
    || keysym == XK_braceright || keysym == XK_quoteright || keysym == XK_quotedbl
    || keysym == XK_guillemotleft || keysym == XK_guillemotright || keysym == XK_degree
    || keysym == XK_ugrave || keysym == XK_Ugrave || keysym == XK_brokenbar
  }

  /** The keysyms the switch names, function block. */
  predicate IsFunctionBlockCaseLabel(keysym: nat) {
    || keysym == XK_BackSpace || keysym == XK_Delete || keysym == XK_KP_Delete
    || keysym == XK_Tab || keysym == XK_KP_Tab || keysym == XK_ISO_Left_Tab
    || keysym == XK_3270_BackTab || keysym == XK_Linefeed || keysym == XK_Return
    || keysym == XK_KP_Enter || keysym == XK_ISO_Enter || keysym == XK_Clear
    || keysym == XK_KP_Begin || keysym == XK_KP_Space || keysym == XK_Home
    || keysym == XK_KP_Home || keysym == XK_End || keysym == XK_KP_End
    || keysym == XK_Page_Up || keysym == XK_KP_Page_Up || keysym == XK_Page_Down
    || keysym == XK_KP_Page_Down || keysym == XK_Left || keysym == XK_KP_Left
    || keysym == XK_Right || keysym == XK_KP_Right || keysym == XK_Down
    || keysym == XK_KP_Down || keysym == XK_Up || keysym == XK_KP_Up
    || keysym == XK_Escape || keysym == XK_Kana_Lock || keysym == XK_Kana_Shift
    || keysym == XK_Hangul || keysym == XK_Hangul_Hanja || keysym == XK_Kanji
    || keysym == XK_Henkan || keysym == XK_Muhenkan
    || XK_KP_0 <= keysym <= XK_KP_9
    || keysym == XK_KP_Multiply || keysym == XK_KP_Add || keysym == XK_KP_Separator
    || keysym == XK_KP_Subtract || keysym == XK_KP_Decimal || keysym == XK_KP_Divide
    || keysym == XK_KP_Equal || keysym == XK_ISO_Level5_Shift
    || keysym == XK_Shift_L || keysym == XK_Shift_R || keysym == XK_Control_L
    || keysym == XK_Control_R || keysym == XK_Meta_L || keysym == XK_Meta_R
    || keysym == XK_Alt_L || keysym == XK_Alt_R || keysym == XK_ISO_Level3_Shift
    || keysym == XK_Multi_key || keysym == XK_Pause || keysym == XK_Caps_Lock
    || keysym == XK_Num_Lock || keysym == XK_Scroll_Lock || keysym == XK_Select
    || keysym == XK_Print || keysym == XK_Execute || keysym == XK_Insert
    || keysym == XK_KP_Insert || keysym == XK_Help || keysym == XK_Super_L
    || keysym == XK_Super_R || keysym == XK_Menu
    || XK_F1 <= keysym <= XK_F24 || XK_KP_F1 <= keysym <= XK_KP_F4
  }

  /** The vendor keysyms the switch names and reports as VKEY_UNKNOWN on purpose. */
  predicate IsIgnoredBrowserKeysym(keysym: nat) {
    || keysym == XF86XK_Refresh || keysym == XF86XK_History || keysym == XF86XK_OpenURL
    || keysym == XF86XK_AddFavorite || keysym == XF86XK_Go || keysym == XF86XK_ZoomIn
    || keysym == XF86XK_ZoomOut
  }

  /** The keysyms the switch names, XFree86 vendor block. */
  predicate IsVendorCaseLabel(keysym: nat) {
    || keysym == XF86XK_Tools || keysym == XF86XK_Launch5 || keysym == XF86XK_Launch6
    || keysym == XF86XK_Launch7 || keysym == XF86XK_Launch8 || keysym == XF86XK_Launch9
    || IsIgnoredBrowserKeysym(keysym)
    || keysym == XF86XK_Back || keysym == XF86XK_Forward || keysym == XF86XK_Reload
    || keysym == XF86XK_Stop || keysym == XF86XK_Search || keysym == XF86XK_Favorites
    || keysym == XF86XK_HomePage || keysym == XF86XK_AudioMute
    || keysym == XF86XK_AudioLowerVolume || keysym == XF86XK_AudioRaiseVolume
    || keysym == XF86XK_AudioNext || keysym == XF86XK_AudioPrev || keysym == XF86XK_AudioStop
    || keysym == XF86XK_AudioPlay || keysym == XF86XK_Mail || keysym == XF86XK_LaunchA
    || keysym == XF86XK_LaunchB || keysym == XF86XK_Calculator || keysym == XF86XK_WLAN
    || keysym == XF86XK_PowerOff || keysym == XF86XK_MonBrightnessDown
    || keysym == XF86XK_MonBrightnessUp || keysym == XF86XK_KbdBrightnessDown
    || keysym == XF86XK_KbdBrightnessUp
  }

  /** Some case of the switch names this keysym. */
  predicate IsCaseLabel(keysym: nat) {
    IsLatinCaseLabel(keysym) || IsFunctionBlockCaseLabel(keysym) || IsVendorCaseLabel(keysym)
  }

  lemma LatinFallback(keysym: nat)
    requires keysym < 0x100
    ensures LatinKeyCode(keysym) == VKEY_UNKNOWN <==> !IsLatinCaseLabel(keysym)
  {
  }

  lemma FunctionBlockFallback(keysym: nat)
    requires 0x100 <= keysym < 0x1_0000
    ensures FunctionBlockKeyCode(keysym) == VKEY_UNKNOWN <==> !IsFunctionBlockCaseLabel(keysym)
  {
  }

  lemma VendorFallback(keysym: nat)
    requires 0x1_0000 <= keysym
    ensures VendorKeyCode(keysym) == VKEY_UNKNOWN
            <==> !IsVendorCaseLabel(keysym) || IsIgnoredBrowserKeysym(keysym)
  {
  }

  /** The translator is total and falls back to VKEY_UNKNOWN exactly for the
      keysyms no case names, plus the seven browser keysyms it ignores on
      purpose: every other case yields a nonzero code. */
  lemma UnknownExactlyWhenUnmapped(keysym: nat)
    ensures KeyboardCodeFromXKeysym(keysym) == VKEY_UNKNOWN
            <==> !IsCaseLabel(keysym) || IsIgnoredBrowserKeysym(keysym)
  {
    if keysym < 0x100 {
      LatinFallback(keysym);
    } else if keysym < 0x1_0000 {
      FunctionBlockFallback(keysym);
    } else {
      VendorFallback(keysym);
    }
  }
}
