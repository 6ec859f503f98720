/** The X11 keysym values the translator switches on, as the X Window System
    Protocol (Appendix A, "KEYSYM Encoding") and the XFree86 vendor keysym
    table assign them. Latin-1 keysyms equal their character codes. */
module XKeysym {

  // TTY function keys, cursor control and miscellaneous functions (0xFFxx).
  const XK_BackSpace := 0xFF08
  const XK_Tab := 0xFF09
  const XK_Linefeed := 0xFF0A
  const XK_Clear := 0xFF0B
  const XK_Return := 0xFF0D
  const XK_Pause := 0xFF13
  const XK_Scroll_Lock := 0xFF14
  const XK_Escape := 0xFF1B
  const XK_Multi_key := 0xFF20
  const XK_Kanji := 0xFF21
  const XK_Muhenkan := 0xFF22
  const XK_Henkan := 0xFF23
  const XK_Kana_Lock := 0xFF2D
  const XK_Kana_Shift := 0xFF2E
  const XK_Hangul := 0xFF31
  const XK_Hangul_Hanja := 0xFF34
  const XK_Home := 0xFF50
  const XK_Left := 0xFF51
  const XK_Up := 0xFF52
  const XK_Right := 0xFF53
  const XK_Down := 0xFF54
  const XK_Page_Up := 0xFF55
  const XK_Page_Down := 0xFF56
  const XK_End := 0xFF57
  const XK_Select := 0xFF60
  const XK_Print := 0xFF61
  const XK_Execute := 0xFF62
  const XK_Insert := 0xFF63
  const XK_Menu := 0xFF67
  const XK_Help := 0xFF6A
  const XK_Num_Lock := 0xFF7F
  const XK_Delete := 0xFFFF

  // Keypad.
  const XK_KP_Space := 0xFF80
  const XK_KP_Tab := 0xFF89
  const XK_KP_Enter := 0xFF8D
  const XK_KP_F1 := 0xFF91
  const XK_KP_F4 := 0xFF94
  const XK_KP_Home := 0xFF95
  const XK_KP_Left := 0xFF96
  const XK_KP_Up := 0xFF97
  const XK_KP_Right := 0xFF98
  const XK_KP_Down := 0xFF99
  const XK_KP_Page_Up := 0xFF9A
  const XK_KP_Page_Down := 0xFF9B
  const XK_KP_End := 0xFF9C
  const XK_KP_Begin := 0xFF9D
  const XK_KP_Insert := 0xFF9E
  const XK_KP_Delete := 0xFF9F
  const XK_KP_Multiply := 0xFFAA
  const XK_KP_Add := 0xFFAB
  const XK_KP_Separator := 0xFFAC
  const XK_KP_Subtract := 0xFFAD
  const XK_KP_Decimal := 0xFFAE
  const XK_KP_Divide := 0xFFAF
  const XK_KP_0 := 0xFFB0
  const XK_KP_9 := 0xFFB9
  const XK_KP_Equal := 0xFFBD

  // Function keys: XK_F1..XK_F24 are the consecutive values 0xFFBE..0xFFD5.
  const XK_F1 := 0xFFBE
  const XK_F24 := 0xFFD5

  // Modifiers.
  const XK_Shift_L := 0xFFE1
  const XK_Shift_R := 0xFFE2
  const XK_Control_L := 0xFFE3
  const XK_Control_R := 0xFFE4
  const XK_Caps_Lock := 0xFFE5
  const XK_Meta_L := 0xFFE7
  const XK_Meta_R := 0xFFE8
  const XK_Alt_L := 0xFFE9
  const XK_Alt_R := 0xFFEA
  const XK_Super_L := 0xFFEB
  const XK_Super_R := 0xFFEC

  // ISO 9995 and 3270 keys.
  const XK_ISO_Level3_Shift := 0xFE03
  const XK_ISO_Level5_Shift := 0xFE11
  const XK_ISO_Left_Tab := 0xFE20
  const XK_ISO_Enter := 0xFE34
  const XK_3270_BackTab := 0xFD05

  // Latin-1: printable ASCII.
  const XK_space := 0x20
  const XK_exclam := 0x21
  const XK_quotedbl := 0x22
  const XK_numbersign := 0x23
  const XK_dollar := 0x24
  const XK_percent := 0x25
  const XK_ampersand := 0x26
  const XK_quoteright := 0x27
  const XK_parenleft := 0x28
  const XK_parenright := 0x29
  const XK_asterisk := 0x2A
  const XK_plus := 0x2B
  const XK_comma := 0x2C
  const XK_minus := 0x2D
  const XK_period := 0x2E
  const XK_slash := 0x2F
  // XK_0..XK_9 are the consecutive values 0x30..0x39.
  const XK_0 := 0x30
  const XK_9 := 0x39
  const XK_colon := 0x3A
  const XK_semicolon := 0x3B
  const XK_less := 0x3C
  const XK_equal := 0x3D
  const XK_greater := 0x3E
  const XK_question := 0x3F
  const XK_at := 0x40
  const XK_A := 0x41
  const XK_B := 0x42
  const XK_C := 0x43
  const XK_D := 0x44
  const XK_E := 0x45
  const XK_F := 0x46
  const XK_G := 0x47
  const XK_H := 0x48
  const XK_I := 0x49
  const XK_J := 0x4A
  const XK_K := 0x4B
  const XK_L := 0x4C
  const XK_M := 0x4D
  const XK_N := 0x4E
  const XK_O := 0x4F
  const XK_P := 0x50
  const XK_Q := 0x51
  const XK_R := 0x52
  const XK_S := 0x53
  const XK_T := 0x54
  const XK_U := 0x55
  const XK_V := 0x56
  const XK_W := 0x57
  const XK_X := 0x58
  const XK_Y := 0x59
  const XK_Z := 0x5A
  const XK_bracketleft := 0x5B
  const XK_backslash := 0x5C
  const XK_bracketright := 0x5D
  const XK_asciicircum := 0x5E
  const XK_underscore := 0x5F
  const XK_quoteleft := 0x60
  const XK_a := 0x61
  const XK_b := 0x62
  const XK_c := 0x63
  const XK_d := 0x64
  const XK_e := 0x65
  const XK_f := 0x66
  const XK_g := 0x67
  const XK_h := 0x68
  const XK_i := 0x69
  const XK_j := 0x6A
  const XK_k := 0x6B
  const XK_l := 0x6C
  const XK_m := 0x6D
  const XK_n := 0x6E
  const XK_o := 0x6F
  const XK_p := 0x70
  const XK_q := 0x71
  const XK_r := 0x72
  const XK_s := 0x73
  const XK_t := 0x74
  const XK_u := 0x75
  const XK_v := 0x76
  const XK_w := 0x77
  const XK_x := 0x78
  const XK_y := 0x79
  const XK_z := 0x7A
  const XK_braceleft := 0x7B
  const XK_bar := 0x7C
  const XK_braceright := 0x7D
  const XK_asciitilde := 0x7E

  // Latin-1: the upper half.
  const XK_brokenbar := 0xA6
  const XK_guillemotleft := 0xAB
  const XK_degree := 0xB0
  const XK_guillemotright := 0xBB
  const XK_multiply := 0xD7
  const XK_Ugrave := 0xD9
  const XK_ugrave := 0xF9

  // XFree86 vendor keysyms (0x1008FFxx).
  const XF86XK_MonBrightnessUp := 0x1008FF02
  const XF86XK_MonBrightnessDown := 0x1008FF03
  const XF86XK_KbdBrightnessUp := 0x1008FF05
  const XF86XK_KbdBrightnessDown := 0x1008FF06
  const XF86XK_AudioLowerVolume := 0x1008FF11
  const XF86XK_AudioMute := 0x1008FF12
  const XF86XK_AudioRaiseVolume := 0x1008FF13
  const XF86XK_AudioPlay := 0x1008FF14
  const XF86XK_AudioStop := 0x1008FF15
  const XF86XK_AudioPrev := 0x1008FF16
  const XF86XK_AudioNext := 0x1008FF17
  const XF86XK_HomePage := 0x1008FF18
  const XF86XK_Mail := 0x1008FF19
  const XF86XK_Search := 0x1008FF1B
  const XF86XK_Calculator := 0x1008FF1D
  const XF86XK_Back := 0x1008FF26
  const XF86XK_Forward := 0x1008FF27
  const XF86XK_Stop := 0x1008FF28
  const XF86XK_Refresh := 0x1008FF29
  const XF86XK_PowerOff := 0x1008FF2A
  const XF86XK_Favorites := 0x1008FF30
  const XF86XK_History := 0x1008FF37
  const XF86XK_OpenURL := 0x1008FF38
  const XF86XK_AddFavorite := 0x1008FF39
  const XF86XK_Launch5 := 0x1008FF45
  const XF86XK_Launch6 := 0x1008FF46
  const XF86XK_Launch7 := 0x1008FF47
  const XF86XK_Launch8 := 0x1008FF48
  const XF86XK_Launch9 := 0x1008FF49
  const XF86XK_LaunchA := 0x1008FF4A
  const XF86XK_LaunchB := 0x1008FF4B
  const XF86XK_Go := 0x1008FF5F
  const XF86XK_Reload := 0x1008FF73
  const XF86XK_Tools := 0x1008FF81
  const XF86XK_ZoomIn := 0x1008FF8B
  const XF86XK_ZoomOut := 0x1008FF8C
  const XF86XK_WLAN := 0x1008FF95
}
