/**
  Key-code mapping (game_keys.h, game_platform_linux.cpp, game_platform_win32.cpp): the X keysym
  and Windows virtual-key tables that turn a platform key into the game's key_code.

  A mapping returns None where the C function returns false and leaves *OutCode alone, and
  Some(code) where it stores code and returns true. The numeric values of the XK_ and VK_ names
  are those of X11's keysymdef.h and Windows' winuser.h.
*/
module KeyMap {
  import opened Wrappers

  /** key_code: the game's key codes, numbered in the order of their enumerators. */
  const KeyCode_MaxCount: int := 114
  newtype KeyCode = x: int | 0 <= x < KeyCode_MaxCount

  const KeyCode_Enter: KeyCode := 0
  const KeyCode_Tab: KeyCode := 1
  const KeyCode_Escape: KeyCode := 2
  const KeyCode_Space: KeyCode := 3
  const KeyCode_BackSpace: KeyCode := 4
  const KeyCode_LeftShift: KeyCode := 5
  const KeyCode_RightShift: KeyCode := 6
  const KeyCode_LeftAlt: KeyCode := 7
  const KeyCode_RightAlt: KeyCode := 8
  const KeyCode_LeftControl: KeyCode := 9
  const KeyCode_RightControl: KeyCode := 10
  const KeyCode_LeftSuper: KeyCode := 11
  const KeyCode_RightSuper: KeyCode := 12
  const KeyCode_Home: KeyCode := 13
  const KeyCode_End: KeyCode := 14
  const KeyCode_PageUp: KeyCode := 15
  const KeyCode_PageDown: KeyCode := 16
  const KeyCode_Insert: KeyCode := 17
  const KeyCode_Delete: KeyCode := 18
  const KeyCode_Up: KeyCode := 19
  const KeyCode_Down: KeyCode := 20
  const KeyCode_Left: KeyCode := 21
  const KeyCode_Right: KeyCode := 22
  const KeyCode_F1: KeyCode := 23
  const KeyCode_F2: KeyCode := 24
  const KeyCode_F3: KeyCode := 25
  const KeyCode_F4: KeyCode := 26
  const KeyCode_F5: KeyCode := 27
  const KeyCode_F6: KeyCode := 28
  const KeyCode_F7: KeyCode := 29
  const KeyCode_F8: KeyCode := 30
  const KeyCode_F9: KeyCode := 31
  const KeyCode_F10: KeyCode := 32
  const KeyCode_F11: KeyCode := 33
  const KeyCode_F12: KeyCode := 34
  const KeyCode_NumLock: KeyCode := 35
  const KeyCode_CapsLock: KeyCode := 36
  const KeyCode_ScrollLock: KeyCode := 37
  const KeyCode_PrintScreen: KeyCode := 38
  const KeyCode_Pause: KeyCode := 39
  const KeyCode_A: KeyCode := 40
  const KeyCode_B: KeyCode := 41
  const KeyCode_C: KeyCode := 42
  const KeyCode_D: KeyCode := 43
  const KeyCode_E: KeyCode := 44
  const KeyCode_F: KeyCode := 45
  const KeyCode_G: KeyCode := 46
  const KeyCode_H: KeyCode := 47
  const KeyCode_I: KeyCode := 48
  const KeyCode_J: KeyCode := 49
  const KeyCode_K: KeyCode := 50
  const KeyCode_L: KeyCode := 51
  const KeyCode_M: KeyCode := 52
  const KeyCode_N: KeyCode := 53
  const KeyCode_O: KeyCode := 54
  const KeyCode_P: KeyCode := 55
  const KeyCode_Q: KeyCode := 56
  const KeyCode_R: KeyCode := 57
  const KeyCode_S: KeyCode := 58
  const KeyCode_T: KeyCode := 59
  const KeyCode_U: KeyCode := 60
  const KeyCode_V: KeyCode := 61
  const KeyCode_W: KeyCode := 62
  const KeyCode_X: KeyCode := 63
  const KeyCode_Y: KeyCode := 64
  const KeyCode_Z: KeyCode := 65
  const KeyCode_0: KeyCode := 66
  const KeyCode_1: KeyCode := 67
  const KeyCode_2: KeyCode := 68
  const KeyCode_3: KeyCode := 69
  const KeyCode_4: KeyCode := 70
  const KeyCode_5: KeyCode := 71
  const KeyCode_6: KeyCode := 72
  const KeyCode_7: KeyCode := 73
  const KeyCode_8: KeyCode := 74
  const KeyCode_9: KeyCode := 75
  const KeyCode_OpenBracket: KeyCode := 76
  const KeyCode_CloseBracket: KeyCode := 77
  const KeyCode_Semicolon: KeyCode := 78
  const KeyCode_Quote: KeyCode := 79
  const KeyCode_Comma: KeyCode := 80
  const KeyCode_Period: KeyCode := 81
  const KeyCode_Slash: KeyCode := 82
  const KeyCode_BackSlash: KeyCode := 83
  const KeyCode_Tilde: KeyCode := 84
  const KeyCode_Plus: KeyCode := 85
  const KeyCode_Minus: KeyCode := 86
  const KeyCode_Num0: KeyCode := 87
  const KeyCode_Num1: KeyCode := 88
  const KeyCode_Num2: KeyCode := 89
  const KeyCode_Num3: KeyCode := 90
  const KeyCode_Num4: KeyCode := 91
  const KeyCode_Num5: KeyCode := 92
  const KeyCode_Num6: KeyCode := 93
  const KeyCode_Num7: KeyCode := 94
  const KeyCode_Num8: KeyCode := 95
  const KeyCode_Num9: KeyCode := 96
  const KeyCode_NumUp: KeyCode := 97
  const KeyCode_NumDown: KeyCode := 98
  const KeyCode_NumLeft: KeyCode := 99
  const KeyCode_NumRight: KeyCode := 100
  const KeyCode_NumHome: KeyCode := 101
  const KeyCode_NumEnd: KeyCode := 102
  const KeyCode_NumPageUp: KeyCode := 103
  const KeyCode_NumPageDown: KeyCode := 104
  const KeyCode_NumInsert: KeyCode := 105
  const KeyCode_NumDelete: KeyCode := 106
  const KeyCode_NumEnter: KeyCode := 107
  const KeyCode_NumMultiply: KeyCode := 108
  const KeyCode_NumDivide: KeyCode := 109
  const KeyCode_NumPlus: KeyCode := 110
  const KeyCode_NumMinus: KeyCode := 111
  const KeyCode_NumClear: KeyCode := 112
  const KeyCode_NumSeparator: KeyCode := 113

  // ---------------------------------------------------------------------------------------------
  // X11 keysyms
  // ---------------------------------------------------------------------------------------------

  const XK_Return: nat := 0xFF0D
  const XK_Tab: nat := 0xFF09
  const XK_Escape: nat := 0xFF1B
  const XK_KP_Space: nat := 0xFF80
  const XK_BackSpace: nat := 0xFF08
  const XK_Shift_L: nat := 0xFFE1
  const XK_Shift_R: nat := 0xFFE2
  const XK_Alt_L: nat := 0xFFE9
  const XK_Alt_R: nat := 0xFFEA
  const XK_Control_L: nat := 0xFFE3
  const XK_Control_R: nat := 0xFFE4
  const XK_Super_L: nat := 0xFFEB
  const XK_Super_R: nat := 0xFFEC
  const XK_Home: nat := 0xFF50
  const XK_End: nat := 0xFF57
  const XK_Prior: nat := 0xFF55
  const XK_Next: nat := 0xFF56
  const XK_Insert: nat := 0xFF63
  const XK_Delete: nat := 0xFFFF
  const XK_Up: nat := 0xFF52
  const XK_Down: nat := 0xFF54
  const XK_Left: nat := 0xFF51
  const XK_Right: nat := 0xFF53
  const XK_F1: nat := 0xFFBE
  const XK_F2: nat := 0xFFBF
  const XK_F3: nat := 0xFFC0
  const XK_F4: nat := 0xFFC1
  const XK_F5: nat := 0xFFC2
  const XK_F6: nat := 0xFFC3
  const XK_F7: nat := 0xFFC4
  const XK_F8: nat := 0xFFC5
  const XK_F9: nat := 0xFFC6
  const XK_F10: nat := 0xFFC7
  const XK_F11: nat := 0xFFC8
  const XK_F12: nat := 0xFFC9
  const XK_Num_Lock: nat := 0xFF7F
  const XK_Caps_Lock: nat := 0xFFE5
  const XK_Scroll_Lock: nat := 0xFF14
  const XK_Print: nat := 0xFF61
  const XK_Pause: nat := 0xFF13
  const XK_a: nat := 0x0061
  const XK_b: nat := 0x0062
  const XK_c: nat := 0x0063
  const XK_d: nat := 0x0064
  const XK_e: nat := 0x0065
  const XK_f: nat := 0x0066
  const XK_g: nat := 0x0067
  const XK_h: nat := 0x0068
  const XK_i: nat := 0x0069
  const XK_j: nat := 0x006A
  const XK_k: nat := 0x006B
  const XK_l: nat := 0x006C
  const XK_m: nat := 0x006D
  const XK_n: nat := 0x006E
  const XK_o: nat := 0x006F
  const XK_p: nat := 0x0070
  const XK_q: nat := 0x0071
  const XK_r: nat := 0x0072
  const XK_s: nat := 0x0073
  const XK_t: nat := 0x0074
  const XK_u: nat := 0x0075
  const XK_v: nat := 0x0076
  const XK_w: nat := 0x0077
  const XK_x: nat := 0x0078
  const XK_y: nat := 0x0079
  const XK_z: nat := 0x007A
  const XK_0: nat := 0x0030
  const XK_1: nat := 0x0031
  const XK_2: nat := 0x0032
  const XK_3: nat := 0x0033
  const XK_4: nat := 0x0034
  const XK_5: nat := 0x0035
  const XK_6: nat := 0x0036
  const XK_7: nat := 0x0037
  const XK_8: nat := 0x0038
  const XK_9: nat := 0x0039
  const XK_bracketleft: nat := 0x005B
  const XK_bracketright: nat := 0x005D
  const XK_semicolon: nat := 0x003B
  const XK_quotedbl: nat := 0x0022
  const XK_comma: nat := 0x002C
  const XK_period: nat := 0x002E
  const XK_slash: nat := 0x002F
  const XK_backslash: nat := 0x005C
  const XK_asciitilde: nat := 0x007E
  const XK_plus: nat := 0x002B
  const XK_minus: nat := 0x002D
  const XK_KP_Up: nat := 0xFF97
  const XK_KP_Down: nat := 0xFF99
  const XK_KP_Left: nat := 0xFF96
  const XK_KP_Right: nat := 0xFF98
  const XK_KP_Home: nat := 0xFF95
  const XK_KP_End: nat := 0xFF9C
  const XK_KP_Prior: nat := 0xFF9A
  const XK_KP_Next: nat := 0xFF9B
  const XK_KP_0: nat := 0xFFB0
  const XK_KP_1: nat := 0xFFB1
  const XK_KP_2: nat := 0xFFB2
  const XK_KP_3: nat := 0xFFB3
  const XK_KP_4: nat := 0xFFB4
  const XK_KP_5: nat := 0xFFB5
  const XK_KP_6: nat := 0xFFB6
  const XK_KP_7: nat := 0xFFB7
  const XK_KP_8: nat := 0xFFB8
  const XK_KP_9: nat := 0xFFB9
  const XK_KP_Multiply: nat := 0xFFAA
  const XK_KP_Divide: nat := 0xFFAF
  const XK_KP_Add: nat := 0xFFAB
  const XK_KP_Subtract: nat := 0xFFAD
  const XK_KP_Separator: nat := 0xFFAC
  /** The plain space keysym, which the table does not list. */
  const XK_space: nat := 0x0020

  /** LinuxMapXKeySymToKeyCode: the table of KeyMap(XK_..., KeyCode_...) lines, in its groups.
      The C code runs every line and keeps the last match; the listed keysyms are distinct, so at
      most one line matches, and testing the lines in order and stopping at the match gives the
      same key code. */
  function LinuxMapXKeySymToKeyCode(keySym: nat): Option<KeyCode> {
    if LinuxEditingKeys(keySym).Some? then LinuxEditingKeys(keySym)
    else if LinuxLockKeys(keySym).Some? then LinuxLockKeys(keySym)
    else if LinuxLetterKeys(keySym).Some? then LinuxLetterKeys(keySym)
    else if LinuxDigitKeys(keySym).Some? then LinuxDigitKeys(keySym)
    else if LinuxPunctuationKeys(keySym).Some? then LinuxPunctuationKeys(keySym)
    else if LinuxKeypadKeys(keySym).Some? then LinuxKeypadKeys(keySym)
    else None
  }

  /** The table's lines for the editing, modifier, cursor and function keys. */
  function LinuxEditingKeys(keySym: nat): Option<KeyCode> {
    if keySym == XK_Return then Some(KeyCode_Enter)
    else if keySym == XK_Tab then Some(KeyCode_Tab)
    else if keySym == XK_Escape then Some(KeyCode_Escape)
    else if keySym == XK_KP_Space then Some(KeyCode_Space)
    else if keySym == XK_BackSpace then Some(KeyCode_BackSpace)
    else if keySym == XK_Shift_L then Some(KeyCode_LeftShift)
    else if keySym == XK_Shift_R then Some(KeyCode_RightShift)
    else if keySym == XK_Alt_L then Some(KeyCode_LeftAlt)
    else if keySym == XK_Alt_R then Some(KeyCode_RightAlt)
    else if keySym == XK_Control_L then Some(KeyCode_LeftControl)
    else if keySym == XK_Control_R then Some(KeyCode_RightControl)
    else if keySym == XK_Super_L then Some(KeyCode_LeftSuper)
    else if keySym == XK_Super_R then Some(KeyCode_RightSuper)
    else if keySym == XK_Home then Some(KeyCode_Home)
    else if keySym == XK_End then Some(KeyCode_End)
    else if keySym == XK_Prior then Some(KeyCode_PageUp)
    else if keySym == XK_Next then Some(KeyCode_PageDown)
    else if keySym == XK_Insert then Some(KeyCode_Insert)
    else if keySym == XK_Delete then Some(KeyCode_Delete)
    else if keySym == XK_Up then Some(KeyCode_Up)
    else if keySym == XK_Down then Some(KeyCode_Down)
    else if keySym == XK_Left then Some(KeyCode_Left)
    else if keySym == XK_Right then Some(KeyCode_Right)
    else if keySym == XK_F1 then Some(KeyCode_F1)
    else if keySym == XK_F2 then Some(KeyCode_F2)
    else if keySym == XK_F3 then Some(KeyCode_F3)
    else if keySym == XK_F4 then Some(KeyCode_F4)
    else if keySym == XK_F5 then Some(KeyCode_F5)
    else if keySym == XK_F6 then Some(KeyCode_F6)
    else if keySym == XK_F7 then Some(KeyCode_F7)
    else if keySym == XK_F8 then Some(KeyCode_F8)
    else if keySym == XK_F9 then Some(KeyCode_F9)
    else if keySym == XK_F10 then Some(KeyCode_F10)
    else if keySym == XK_F11 then Some(KeyCode_F11)
    else if keySym == XK_F12 then Some(KeyCode_F12)
    else None
  }

  /** The table's lines for the lock keys, PRINT and PAUSE. */
  function LinuxLockKeys(keySym: nat): Option<KeyCode> {
    if keySym == XK_Num_Lock then Some(KeyCode_NumLock)
    else if keySym == XK_Caps_Lock then Some(KeyCode_CapsLock)
    else if keySym == XK_Scroll_Lock then Some(KeyCode_ScrollLock)
    else if keySym == XK_Print then Some(KeyCode_PrintScreen)
    else if keySym == XK_Pause then Some(KeyCode_Pause)
    else None
  }

  /** The table's lines for the letters. */
  function LinuxLetterKeys(keySym: nat): Option<KeyCode> {
    if keySym == XK_a then Some(KeyCode_A)
    else if keySym == XK_b then Some(KeyCode_B)
    else if keySym == XK_c then Some(KeyCode_C)
    else if keySym == XK_d then Some(KeyCode_D)
    else if keySym == XK_e then Some(KeyCode_E)
    else if keySym == XK_f then Some(KeyCode_F)
    else if keySym == XK_g then Some(KeyCode_G)
    else if keySym == XK_h then Some(KeyCode_H)
    else if keySym == XK_i then Some(KeyCode_I)
    else if keySym == XK_j then Some(KeyCode_J)
    else if keySym == XK_k then Some(KeyCode_K)
    else if keySym == XK_l then Some(KeyCode_L)
    else if keySym == XK_m then Some(KeyCode_M)
    else if keySym == XK_n then Some(KeyCode_N)
    else if keySym == XK_o then Some(KeyCode_O)
    else if keySym == XK_p then Some(KeyCode_P)
    else if keySym == XK_q then Some(KeyCode_Q)
    else if keySym == XK_r then Some(KeyCode_R)
    else if keySym == XK_s then Some(KeyCode_S)
    else if keySym == XK_t then Some(KeyCode_T)
    else if keySym == XK_u then Some(KeyCode_U)
    else if keySym == XK_v then Some(KeyCode_V)
    else if keySym == XK_w then Some(KeyCode_W)
    else if keySym == XK_x then Some(KeyCode_X)
    else if keySym == XK_y then Some(KeyCode_Y)
    else if keySym == XK_z then Some(KeyCode_Z)
    else None
  }

  /** The table's lines for the digits. */
  function LinuxDigitKeys(keySym: nat): Option<KeyCode> {
    if keySym == XK_0 then Some(KeyCode_0)
    else if keySym == XK_1 then Some(KeyCode_1)
    else if keySym == XK_2 then Some(KeyCode_2)
    else if keySym == XK_3 then Some(KeyCode_3)
    else if keySym == XK_4 then Some(KeyCode_4)
    else if keySym == XK_5 then Some(KeyCode_5)
    else if keySym == XK_6 then Some(KeyCode_6)
    else if keySym == XK_7 then Some(KeyCode_7)
    else if keySym == XK_8 then Some(KeyCode_8)
    else if keySym == XK_9 then Some(KeyCode_9)
    else None
  }

  /** The table's lines for the punctuation keys. */
  function LinuxPunctuationKeys(keySym: nat): Option<KeyCode> {
    if keySym == XK_bracketleft then Some(KeyCode_OpenBracket)
    else if keySym == XK_bracketright then Some(KeyCode_CloseBracket)
    else if keySym == XK_semicolon then Some(KeyCode_Semicolon)
    else if keySym == XK_quotedbl then Some(KeyCode_Quote)
    else if keySym == XK_comma then Some(KeyCode_Comma)
    else if keySym == XK_period then Some(KeyCode_Period)
    else if keySym == XK_slash then Some(KeyCode_Slash)
    else if keySym == XK_backslash then Some(KeyCode_BackSlash)
    else if keySym == XK_asciitilde then Some(KeyCode_Tilde)
    else if keySym == XK_plus then Some(KeyCode_Plus)
    else if keySym == XK_minus then Some(KeyCode_Minus)
    else None
  }

  /** The table's lines for the keypad. */
  function LinuxKeypadKeys(keySym: nat): Option<KeyCode> {
    if keySym == XK_KP_Up then Some(KeyCode_NumUp)
    else if keySym == XK_KP_Down then Some(KeyCode_NumDown)
    else if keySym == XK_KP_Left then Some(KeyCode_NumLeft)
    else if keySym == XK_KP_Right then Some(KeyCode_NumRight)
    else if keySym == XK_KP_Home then Some(KeyCode_NumHome)
    else if keySym == XK_KP_End then Some(KeyCode_NumEnd)
    else if keySym == XK_KP_Prior then Some(KeyCode_NumPageUp)
    else if keySym == XK_KP_Next then Some(KeyCode_NumPageDown)
    else if keySym == XK_KP_0 then Some(KeyCode_Num0)
    else if keySym == XK_KP_1 then Some(KeyCode_Num1)
    else if keySym == XK_KP_2 then Some(KeyCode_Num2)
    else if keySym == XK_KP_3 then Some(KeyCode_Num3)
    else if keySym == XK_KP_4 then Some(KeyCode_Num4)
    else if keySym == XK_KP_5 then Some(KeyCode_Num5)
    else if keySym == XK_KP_6 then Some(KeyCode_Num6)
    else if keySym == XK_KP_7 then Some(KeyCode_Num7)
    else if keySym == XK_KP_8 then Some(KeyCode_Num8)
    else if keySym == XK_KP_9 then Some(KeyCode_Num9)
    else if keySym == XK_KP_Multiply then Some(KeyCode_NumMultiply)
    else if keySym == XK_KP_Divide then Some(KeyCode_NumDivide)
    else if keySym == XK_KP_Add then Some(KeyCode_NumPlus)
    else if keySym == XK_KP_Subtract then Some(KeyCode_NumMinus)
    else if keySym == XK_KP_Separator then Some(KeyCode_NumClear)
    else None
  }

  /** The keysym the Linux table assigns to each key code, if any: the same table read from the
      other side. */
  function XKeySymOf(code: KeyCode): Option<nat> {
    if code == KeyCode_Enter then Some(XK_Return)
    else if code == KeyCode_Tab then Some(XK_Tab)
    else if code == KeyCode_Escape then Some(XK_Escape)
    else if code == KeyCode_Space then Some(XK_KP_Space)
    else if code == KeyCode_BackSpace then Some(XK_BackSpace)
    else if code == KeyCode_LeftShift then Some(XK_Shift_L)
    else if code == KeyCode_RightShift then Some(XK_Shift_R)
    else if code == KeyCode_LeftAlt then Some(XK_Alt_L)
    else if code == KeyCode_RightAlt then Some(XK_Alt_R)
    else if code == KeyCode_LeftControl then Some(XK_Control_L)
    else if code == KeyCode_RightControl then Some(XK_Control_R)
    else if code == KeyCode_LeftSuper then Some(XK_Super_L)
    else if code == KeyCode_RightSuper then Some(XK_Super_R)
    else if code == KeyCode_Home then Some(XK_Home)
    else if code == KeyCode_End then Some(XK_End)
    else if code == KeyCode_PageUp then Some(XK_Prior)
    else if code == KeyCode_PageDown then Some(XK_Next)
    else if code == KeyCode_Insert then Some(XK_Insert)
    else if code == KeyCode_Delete then Some(XK_Delete)
    else if code == KeyCode_Up then Some(XK_Up)
    else if code == KeyCode_Down then Some(XK_Down)
    else if code == KeyCode_Left then Some(XK_Left)
    else if code == KeyCode_Right then Some(XK_Right)
    else if code == KeyCode_F1 then Some(XK_F1)
    else if code == KeyCode_F2 then Some(XK_F2)
    else if code == KeyCode_F3 then Some(XK_F3)
    else if code == KeyCode_F4 then Some(XK_F4)
    else if code == KeyCode_F5 then Some(XK_F5)
    else if code == KeyCode_F6 then Some(XK_F6)
    else if code == KeyCode_F7 then Some(XK_F7)
    else if code == KeyCode_F8 then Some(XK_F8)
    else if code == KeyCode_F9 then Some(XK_F9)
    else if code == KeyCode_F10 then Some(XK_F10)
    else if code == KeyCode_F11 then Some(XK_F11)
    else if code == KeyCode_F12 then Some(XK_F12)
    else if code == KeyCode_NumLock then Some(XK_Num_Lock)
    else if code == KeyCode_CapsLock then Some(XK_Caps_Lock)
    else if code == KeyCode_ScrollLock then Some(XK_Scroll_Lock)
    else if code == KeyCode_PrintScreen then Some(XK_Print)
    else if code == KeyCode_Pause then Some(XK_Pause)
    else if code == KeyCode_A then Some(XK_a)
    else if code == KeyCode_B then Some(XK_b)
    else if code == KeyCode_C then Some(XK_c)
    else if code == KeyCode_D then Some(XK_d)
    else if code == KeyCode_E then Some(XK_e)
    else if code == KeyCode_F then Some(XK_f)
    else if code == KeyCode_G then Some(XK_g)
    else if code == KeyCode_H then Some(XK_h)
    else if code == KeyCode_I then Some(XK_i)
    else if code == KeyCode_J then Some(XK_j)
    else if code == KeyCode_K then Some(XK_k)
    else if code == KeyCode_L then Some(XK_l)
    else if code == KeyCode_M then Some(XK_m)
    else if code == KeyCode_N then Some(XK_n)
    else if code == KeyCode_O then Some(XK_o)
    else if code == KeyCode_P then Some(XK_p)
    else if code == KeyCode_Q then Some(XK_q)
    else if code == KeyCode_R then Some(XK_r)
    else if code == KeyCode_S then Some(XK_s)
    else if code == KeyCode_T then Some(XK_t)
    else if code == KeyCode_U then Some(XK_u)
    else if code == KeyCode_V then Some(XK_v)
    else if code == KeyCode_W then Some(XK_w)
    else if code == KeyCode_X then Some(XK_x)
    else if code == KeyCode_Y then Some(XK_y)
    else if code == KeyCode_Z then Some(XK_z)
    else if code == KeyCode_0 then Some(XK_0)
    else if code == KeyCode_1 then Some(XK_1)
    else if code == KeyCode_2 then Some(XK_2)
    else if code == KeyCode_3 then Some(XK_3)
    else if code == KeyCode_4 then Some(XK_4)
    else if code == KeyCode_5 then Some(XK_5)
    else if code == KeyCode_6 then Some(XK_6)
    else if code == KeyCode_7 then Some(XK_7)
    else if code == KeyCode_8 then Some(XK_8)
    else if code == KeyCode_9 then Some(XK_9)
    else if code == KeyCode_OpenBracket then Some(XK_bracketleft)
    else if code == KeyCode_CloseBracket then Some(XK_bracketright)
    else if code == KeyCode_Semicolon then Some(XK_semicolon)
    else if code == KeyCode_Quote then Some(XK_quotedbl)
    else if code == KeyCode_Comma then Some(XK_comma)
    else if code == KeyCode_Period then Some(XK_period)
    else if code == KeyCode_Slash then Some(XK_slash)
    else if code == KeyCode_BackSlash then Some(XK_backslash)
    else if code == KeyCode_Tilde then Some(XK_asciitilde)
    else if code == KeyCode_Plus then Some(XK_plus)
    else if code == KeyCode_Minus then Some(XK_minus)
    else if code == KeyCode_Num0 then Some(XK_KP_0)
    else if code == KeyCode_Num1 then Some(XK_KP_1)
    else if code == KeyCode_Num2 then Some(XK_KP_2)
    else if code == KeyCode_Num3 then Some(XK_KP_3)
    else if code == KeyCode_Num4 then Some(XK_KP_4)
    else if code == KeyCode_Num5 then Some(XK_KP_5)
    else if code == KeyCode_Num6 then Some(XK_KP_6)
    else if code == KeyCode_Num7 then Some(XK_KP_7)
    else if code == KeyCode_Num8 then Some(XK_KP_8)
    else if code == KeyCode_Num9 then Some(XK_KP_9)
    else if code == KeyCode_NumUp then Some(XK_KP_Up)
    else if code == KeyCode_NumDown then Some(XK_KP_Down)
    else if code == KeyCode_NumLeft then Some(XK_KP_Left)
    else if code == KeyCode_NumRight then Some(XK_KP_Right)
    else if code == KeyCode_NumHome then Some(XK_KP_Home)
    else if code == KeyCode_NumEnd then Some(XK_KP_End)
    else if code == KeyCode_NumPageUp then Some(XK_KP_Prior)
    else if code == KeyCode_NumPageDown then Some(XK_KP_Next)
    else if code == KeyCode_NumMultiply then Some(XK_KP_Multiply)
    else if code == KeyCode_NumDivide then Some(XK_KP_Divide)
    else if code == KeyCode_NumPlus then Some(XK_KP_Add)
    else if code == KeyCode_NumMinus then Some(XK_KP_Subtract)
    else if code == KeyCode_NumClear then Some(XK_KP_Separator)
    else None
  }

  /** Each line for the editing, modifier, cursor and function keys is the one keysym listed for its key code. */
  lemma LinuxEditingKeysInverse(keySym: nat)
    ensures LinuxEditingKeys(keySym).Some? ==> XKeySymOf(LinuxEditingKeys(keySym).value) == Some(keySym)
  {
  }

  /** Each line for the lock keys, PRINT and PAUSE is the one keysym listed for its key code. */
  lemma LinuxLockKeysInverse(keySym: nat)
    ensures LinuxLockKeys(keySym).Some? ==> XKeySymOf(LinuxLockKeys(keySym).value) == Some(keySym)
  {
  }

  /** Each line for the letters is the one keysym listed for its key code. */
  lemma LinuxLetterKeysInverse(keySym: nat)
    ensures LinuxLetterKeys(keySym).Some? ==> XKeySymOf(LinuxLetterKeys(keySym).value) == Some(keySym)
  {
  }

  /** Each line for the digits is the one keysym listed for its key code. */
  lemma LinuxDigitKeysInverse(keySym: nat)
    ensures LinuxDigitKeys(keySym).Some? ==> XKeySymOf(LinuxDigitKeys(keySym).value) == Some(keySym)
  {
  }

  /** Each line for the punctuation keys is the one keysym listed for its key code. */
  lemma LinuxPunctuationKeysInverse(keySym: nat)
    ensures LinuxPunctuationKeys(keySym).Some? ==> XKeySymOf(LinuxPunctuationKeys(keySym).value) == Some(keySym)
  {
  }

  /** Each line for the keypad is the one keysym listed for its key code. */
  lemma LinuxKeypadKeysInverse(keySym: nat)
    ensures LinuxKeypadKeys(keySym).Some? ==> XKeySymOf(LinuxKeypadKeys(keySym).value) == Some(keySym)
  {
  }

  // ---------------------------------------------------------------------------------------------
  // Windows virtual keys
  // ---------------------------------------------------------------------------------------------

  const VK_SHIFT: nat := 0x10
  const VK_CONTROL: nat := 0x11
  const VK_MENU: nat := 0x12
  const VK_RETURN: nat := 0x0D
  const VK_INSERT: nat := 0x2D
  const VK_DELETE: nat := 0x2E
  const VK_HOME: nat := 0x24
  const VK_END: nat := 0x23
  const VK_PRIOR: nat := 0x21
  const VK_NEXT: nat := 0x22
  const VK_UP: nat := 0x26
  const VK_DOWN: nat := 0x28
  const VK_LEFT: nat := 0x25
  const VK_RIGHT: nat := 0x27
  const VK_CLEAR: nat := 0x0C
  const VK_TAB: nat := 0x09
  const VK_ESCAPE: nat := 0x1B
  const VK_SPACE: nat := 0x20
  const VK_BACK: nat := 0x08
  const VK_LSHIFT: nat := 0xA0
  const VK_RSHIFT: nat := 0xA1
  const VK_LMENU: nat := 0xA4
  const VK_RMENU: nat := 0xA5
  const VK_LCONTROL: nat := 0xA2
  const VK_RCONTROL: nat := 0xA3
  const VK_LWIN: nat := 0x5B
  const VK_RWIN: nat := 0x5C
  const VK_F1: nat := 0x70
  const VK_F2: nat := 0x71
  const VK_F3: nat := 0x72
  const VK_F4: nat := 0x73
  const VK_F5: nat := 0x74
  const VK_F6: nat := 0x75
  const VK_F7: nat := 0x76
  const VK_F8: nat := 0x77
  const VK_F9: nat := 0x78
  const VK_F10: nat := 0x79
  const VK_F11: nat := 0x7A
  const VK_F12: nat := 0x7B
  const VK_NUMLOCK: nat := 0x90
  const VK_CAPITAL: nat := 0x14
  const VK_SCROLL: nat := 0x91
  const VK_PRINT: nat := 0x2A
  const VK_PAUSE: nat := 0x13
  const VK_OEM_4: nat := 0xDB
  const VK_OEM_6: nat := 0xDD
  const VK_OEM_1: nat := 0xBA
  const VK_OEM_7: nat := 0xDE
  const VK_OEM_COMMA: nat := 0xBC
  const VK_OEM_PERIOD: nat := 0xBE
  const VK_OEM_2: nat := 0xBF
  const VK_OEM_5: nat := 0xDC
  const VK_OEM_3: nat := 0xC0
  const VK_OEM_PLUS: nat := 0xBB
  const VK_OEM_MINUS: nat := 0xBD
  const VK_NUMPAD8: nat := 0x68
  const VK_NUMPAD2: nat := 0x62
  const VK_NUMPAD4: nat := 0x64
  const VK_NUMPAD6: nat := 0x66
  const VK_NUMPAD7: nat := 0x67
  const VK_NUMPAD1: nat := 0x61
  const VK_NUMPAD9: nat := 0x69
  const VK_NUMPAD3: nat := 0x63
  const VK_NUMPAD0: nat := 0x60
  const VK_SEPARATOR: nat := 0x6C
  const VK_MULTIPLY: nat := 0x6A
  const VK_DIVIDE: nat := 0x6F
  const VK_ADD: nat := 0x6B
  const VK_SUBTRACT: nat := 0x6D
  /** The keypad 5 key, which the table does not list. */
  const VK_NUMPAD5: nat := 0x65

  /** The switch of Win32MapVKToKeyCode: keys whose E0 prefix tells two physical keys apart.
      VK_CLEAR with E0 returns false at once; Win32MapVKToKeyCode tests that case first. */
  function Win32SwitchKey(vk: nat, isE0: bool): Option<KeyCode> {
    if vk == VK_CONTROL then Some(if isE0 then KeyCode_RightControl else KeyCode_LeftControl)
    else if vk == VK_MENU then Some(if isE0 then KeyCode_RightAlt else KeyCode_LeftAlt)
    else if vk == VK_RETURN then Some(if isE0 then KeyCode_NumEnter else KeyCode_Enter)
    else if vk == VK_INSERT then Some(if isE0 then KeyCode_Insert else KeyCode_NumInsert)
    else if vk == VK_DELETE then Some(if isE0 then KeyCode_Delete else KeyCode_NumDelete)
    else if vk == VK_HOME then Some(if isE0 then KeyCode_Home else KeyCode_NumHome)
    else if vk == VK_END then Some(if isE0 then KeyCode_End else KeyCode_NumEnd)
    else if vk == VK_PRIOR then Some(if isE0 then KeyCode_PageUp else KeyCode_NumPageUp)
    else if vk == VK_NEXT then Some(if isE0 then KeyCode_PageDown else KeyCode_NumPageDown)
    else if vk == VK_UP then Some(if isE0 then KeyCode_Up else KeyCode_NumUp)
    else if vk == VK_DOWN then Some(if isE0 then KeyCode_Down else KeyCode_NumDown)
    else if vk == VK_LEFT then Some(if isE0 then KeyCode_Left else KeyCode_NumLeft)
    else if vk == VK_RIGHT then Some(if isE0 then KeyCode_Right else KeyCode_NumRight)
    else if vk == VK_CLEAR then Some(KeyCode_NumClear)
    else None
  }

  /** The KeyMap(VK_..., KeyCode_...) lines after the switch, in their order, group by group. The
      listed virtual keys are distinct, so at most one line matches. */
  function Win32TableKey(vk: nat): Option<KeyCode> {
    if Win32EditingKeys(vk).Some? then Win32EditingKeys(vk)
    else if Win32FunctionKeys(vk).Some? then Win32FunctionKeys(vk)
    else if Win32LockKeys(vk).Some? then Win32LockKeys(vk)
    else if Win32LetterKeys(vk).Some? then Win32LetterKeys(vk)
    else if Win32DigitKeys(vk).Some? then Win32DigitKeys(vk)
    else if Win32PunctuationKeys(vk).Some? then Win32PunctuationKeys(vk)
    else if Win32KeypadKeys(vk).Some? then Win32KeypadKeys(vk)
    else None
  }

  /** The table's lines for the editing and modifier keys. */
  function Win32EditingKeys(vk: nat): Option<KeyCode> {
    if vk == VK_TAB then Some(KeyCode_Tab)
    else if vk == VK_ESCAPE then Some(KeyCode_Escape)
    else if vk == VK_SPACE then Some(KeyCode_Space)
    else if vk == VK_BACK then Some(KeyCode_BackSpace)
    else if vk == VK_LSHIFT then Some(KeyCode_LeftShift)
    else if vk == VK_RSHIFT then Some(KeyCode_RightShift)
    else if vk == VK_LMENU then Some(KeyCode_LeftAlt)
    else if vk == VK_RMENU then Some(KeyCode_RightAlt)
    else if vk == VK_LCONTROL then Some(KeyCode_LeftControl)
    else if vk == VK_RCONTROL then Some(KeyCode_RightControl)
    else if vk == VK_LWIN then Some(KeyCode_LeftSuper)
    else if vk == VK_RWIN then Some(KeyCode_RightSuper)
    else None
  }

  /** The table's lines for the function keys. */
  function Win32FunctionKeys(vk: nat): Option<KeyCode> {
    if vk == VK_F1 then Some(KeyCode_F1)
    else if vk == VK_F2 then Some(KeyCode_F2)
    else if vk == VK_F3 then Some(KeyCode_F3)
    else if vk == VK_F4 then Some(KeyCode_F4)
    else if vk == VK_F5 then Some(KeyCode_F5)
    else if vk == VK_F6 then Some(KeyCode_F6)
    else if vk == VK_F7 then Some(KeyCode_F7)
    else if vk == VK_F8 then Some(KeyCode_F8)
    else if vk == VK_F9 then Some(KeyCode_F9)
    else if vk == VK_F10 then Some(KeyCode_F10)
    else if vk == VK_F11 then Some(KeyCode_F11)
    else if vk == VK_F12 then Some(KeyCode_F12)
    else None
  }

  /** The table's lines for the lock and system keys. */
  function Win32LockKeys(vk: nat): Option<KeyCode> {
    if vk == VK_NUMLOCK then Some(KeyCode_NumLock)
    else if vk == VK_CAPITAL then Some(KeyCode_CapsLock)
    else if vk == VK_SCROLL then Some(KeyCode_ScrollLock)
    else if vk == VK_PRINT then Some(KeyCode_PrintScreen)
    else if vk == VK_PAUSE then Some(KeyCode_Pause)
    else None
  }

  /** The table's lines for the letters, by their ASCII codes. */
  function Win32LetterKeys(vk: nat): Option<KeyCode> {
    if vk == 0x41 then Some(KeyCode_A)
    else if vk == 0x42 then Some(KeyCode_B)
    else if vk == 0x43 then Some(KeyCode_C)
    else if vk == 0x44 then Some(KeyCode_D)
    else if vk == 0x45 then Some(KeyCode_E)
    else if vk == 0x46 then Some(KeyCode_F)
    else if vk == 0x47 then Some(KeyCode_G)
    else if vk == 0x48 then Some(KeyCode_H)
    else if vk == 0x49 then Some(KeyCode_I)
    else if vk == 0x4A then Some(KeyCode_J)
    else if vk == 0x4B then Some(KeyCode_K)
    else if vk == 0x4C then Some(KeyCode_L)
    else if vk == 0x4D then Some(KeyCode_M)
    else if vk == 0x4E then Some(KeyCode_N)
    else if vk == 0x4F then Some(KeyCode_O)
    else if vk == 0x50 then Some(KeyCode_P)
    else if vk == 0x51 then Some(KeyCode_Q)
    else if vk == 0x52 then Some(KeyCode_R)
    else if vk == 0x53 then Some(KeyCode_S)
    else if vk == 0x54 then Some(KeyCode_T)
    else if vk == 0x55 then Some(KeyCode_U)
    else if vk == 0x56 then Some(KeyCode_V)
    else if vk == 0x57 then Some(KeyCode_W)
    else if vk == 0x58 then Some(KeyCode_X)
    else if vk == 0x59 then Some(KeyCode_Y)
    else if vk == 0x5A then Some(KeyCode_Z)
    else None
  }

  /** The table's lines for the digits, by their ASCII codes. */
  function Win32DigitKeys(vk: nat): Option<KeyCode> {
    if vk == 0x30 then Some(KeyCode_0)
    else if vk == 0x31 then Some(KeyCode_1)
    else if vk == 0x32 then Some(KeyCode_2)
    else if vk == 0x33 then Some(KeyCode_3)
    else if vk == 0x34 then Some(KeyCode_4)
    else if vk == 0x35 then Some(KeyCode_5)
    else if vk == 0x36 then Some(KeyCode_6)
    else if vk == 0x37 then Some(KeyCode_7)
    else if vk == 0x38 then Some(KeyCode_8)
    else if vk == 0x39 then Some(KeyCode_9)
    else None
  }

  /** The table's lines for the punctuation. */
  function Win32PunctuationKeys(vk: nat): Option<KeyCode> {
    if vk == VK_OEM_4 then Some(KeyCode_OpenBracket)
    else if vk == VK_OEM_6 then Some(KeyCode_CloseBracket)
    else if vk == VK_OEM_1 then Some(KeyCode_Semicolon)
    else if vk == VK_OEM_7 then Some(KeyCode_Quote)
    else if vk == VK_OEM_COMMA then Some(KeyCode_Comma)
    else if vk == VK_OEM_PERIOD then Some(KeyCode_Period)
    else if vk == VK_OEM_2 then Some(KeyCode_Slash)
    else if vk == VK_OEM_5 then Some(KeyCode_BackSlash)
    else if vk == VK_OEM_3 then Some(KeyCode_Tilde)
    else if vk == VK_OEM_PLUS then Some(KeyCode_Plus)
    else if vk == VK_OEM_MINUS then Some(KeyCode_Minus)
    else None
  }

  /** The table's lines for the keypad keys with NUM LOCK on and the keypad operators. */
  function Win32KeypadKeys(vk: nat): Option<KeyCode> {
    if vk == VK_NUMPAD8 then Some(KeyCode_Num8)
    else if vk == VK_NUMPAD2 then Some(KeyCode_Num2)
    else if vk == VK_NUMPAD4 then Some(KeyCode_Num4)
    else if vk == VK_NUMPAD6 then Some(KeyCode_Num6)
    else if vk == VK_NUMPAD7 then Some(KeyCode_Num7)
    else if vk == VK_NUMPAD1 then Some(KeyCode_Num1)
    else if vk == VK_NUMPAD9 then Some(KeyCode_Num9)
    else if vk == VK_NUMPAD3 then Some(KeyCode_Num3)
    else if vk == VK_NUMPAD0 then Some(KeyCode_Num0)
    else if vk == VK_SEPARATOR then Some(KeyCode_NumSeparator)
    else if vk == VK_MULTIPLY then Some(KeyCode_NumMultiply)
    else if vk == VK_DIVIDE then Some(KeyCode_NumDivide)
    else if vk == VK_ADD then Some(KeyCode_NumPlus)
    else if vk == VK_SUBTRACT then Some(KeyCode_NumMinus)
    else None
  }

  const Win32EditingVKs: set<nat> :=
    {VK_TAB, VK_ESCAPE, VK_SPACE, VK_BACK, VK_LSHIFT, VK_RSHIFT, VK_LMENU, VK_RMENU,
     VK_LCONTROL, VK_RCONTROL, VK_LWIN, VK_RWIN}

  const Win32FunctionVKs: set<nat> :=
    {VK_F1, VK_F2, VK_F3, VK_F4, VK_F5, VK_F6, VK_F7, VK_F8, VK_F9, VK_F10, VK_F11, VK_F12}

  const Win32LockVKs: set<nat> :=
    {VK_NUMLOCK, VK_CAPITAL, VK_SCROLL, VK_PRINT, VK_PAUSE}

  const Win32LetterVKs: set<nat> :=
    {0x41, 0x42, 0x43, 0x44, 0x45, 0x46, 0x47, 0x48, 0x49, 0x4A, 0x4B, 0x4C, 0x4D, 0x4E, 0x4F,
     0x50, 0x51, 0x52, 0x53, 0x54, 0x55, 0x56, 0x57, 0x58, 0x59, 0x5A}

  const Win32DigitVKs: set<nat> :=
    {0x30, 0x31, 0x32, 0x33, 0x34, 0x35, 0x36, 0x37, 0x38, 0x39}

  const Win32PunctuationVKs: set<nat> :=
    {VK_OEM_4, VK_OEM_6, VK_OEM_1, VK_OEM_7, VK_OEM_COMMA, VK_OEM_PERIOD, VK_OEM_2, VK_OEM_5,
     VK_OEM_3, VK_OEM_PLUS, VK_OEM_MINUS}

  const Win32KeypadVKs: set<nat> :=
    {VK_NUMPAD8, VK_NUMPAD2, VK_NUMPAD4, VK_NUMPAD6, VK_NUMPAD7, VK_NUMPAD1, VK_NUMPAD9,
     VK_NUMPAD3, VK_NUMPAD0, VK_SEPARATOR, VK_MULTIPLY, VK_DIVIDE, VK_ADD, VK_SUBTRACT}

  /** The virtual keys the table lines list. */
  const Win32TableKeys: set<nat> :=
    Win32EditingVKs + Win32FunctionVKs + Win32LockVKs + Win32LetterVKs + Win32DigitVKs
    + Win32PunctuationVKs + Win32KeypadVKs

  /** The virtual keys the switch handles. */
  const Win32SwitchKeys: set<nat> := {
    VK_CONTROL, VK_MENU, VK_RETURN, VK_INSERT, VK_DELETE, VK_HOME, VK_END, VK_PRIOR, VK_NEXT,
    VK_UP, VK_DOWN, VK_LEFT, VK_RIGHT, VK_CLEAR
  }

  /** Win32MapVKToKeyCode(VKCode, ScanCode, IsE0, IsE1, OutCode). Code 255 is a fake key of an
      escape sequence and is discarded; VK_SHIFT is replaced by the left- or right-hand shift key
      that MapVirtualKey names for the scan code, given here as `shiftVK`. The NUMLOCK and E1
      branches only rewrite ScanCode, which nothing reads afterwards, so the result does not
      depend on IsE1. The table lines run after the switch and overwrite its result when they
      match. */
  function Win32MapVKToKeyCode(vkCode: nat, scanCode: nat, isE0: bool, shiftVK: nat -> nat): Option<KeyCode> {
    if vkCode == 255 then None
    else
      var vk := if vkCode == VK_SHIFT then shiftVK(scanCode) else vkCode;
      if vk == VK_CLEAR && isE0 then None
      else if Win32TableKey(vk).Some? then Win32TableKey(vk)
      else Win32SwitchKey(vk, isE0)
  }

  // ---------------------------------------------------------------------------------------------
  // Properties
  // ---------------------------------------------------------------------------------------------

  /** A keysym the Linux table accepts is the one keysym listed for the key code it gets. */
  lemma LinuxMapToInverse(keySym: nat)
    ensures LinuxMapXKeySymToKeyCode(keySym).Some? ==>
              XKeySymOf(LinuxMapXKeySymToKeyCode(keySym).value) == Some(keySym)
  {
    LinuxEditingKeysInverse(keySym);
    LinuxLockKeysInverse(keySym);
    LinuxLetterKeysInverse(keySym);
    LinuxDigitKeysInverse(keySym);
    LinuxPunctuationKeysInverse(keySym);
    LinuxKeypadKeysInverse(keySym);
  }

  /** Every keysym listed for a key code from KeyCode_Enter to KeyCode_RightSuper maps back to that code. */
  lemma MapBackEnterToRightSuper(code: KeyCode)
    requires KeyCode_Enter <= code <= KeyCode_RightSuper
    ensures XKeySymOf(code).Some? ==> LinuxMapXKeySymToKeyCode(XKeySymOf(code).value) == Some(code)
  {
  }

  /** Every keysym listed for a key code from KeyCode_Home to KeyCode_Left maps back to that code. */
  lemma MapBackHomeToLeft(code: KeyCode)
    requires KeyCode_Home <= code <= KeyCode_Left
    ensures XKeySymOf(code).Some? ==> LinuxMapXKeySymToKeyCode(XKeySymOf(code).value) == Some(code)
  {
  }

  /** Every keysym listed for a key code from KeyCode_Right to KeyCode_F6 maps back to that code. */
  lemma MapBackRightToF6(code: KeyCode)
    requires KeyCode_Right <= code <= KeyCode_F6
    ensures XKeySymOf(code).Some? ==> LinuxMapXKeySymToKeyCode(XKeySymOf(code).value) == Some(code)
  {
  }

  /** Every keysym listed for a key code from KeyCode_F7 to KeyCode_F12 maps back to that code. */
  lemma MapBackF7ToF12(code: KeyCode)
    requires KeyCode_F7 <= code <= KeyCode_F12
    ensures XKeySymOf(code).Some? ==> LinuxMapXKeySymToKeyCode(XKeySymOf(code).value) == Some(code)
  {
  }

  /** Every keysym listed for a key code from KeyCode_NumLock to KeyCode_Pause maps back to that code. */
  lemma MapBackNumLockToPause(code: KeyCode)
    requires KeyCode_NumLock <= code <= KeyCode_Pause
    ensures XKeySymOf(code).Some? ==> LinuxMapXKeySymToKeyCode(XKeySymOf(code).value) == Some(code)
  {
  }

  /** Every keysym listed for a key code from KeyCode_A to KeyCode_E maps back to that code. */
  lemma MapBackAToE(code: KeyCode)
    requires KeyCode_A <= code <= KeyCode_E
    ensures XKeySymOf(code).Some? ==> LinuxMapXKeySymToKeyCode(XKeySymOf(code).value) == Some(code)
  {
  }

  /** Every keysym listed for a key code from KeyCode_F to KeyCode_I maps back to that code. */
  lemma MapBackFToI(code: KeyCode)
    requires KeyCode_F <= code <= KeyCode_I
    ensures XKeySymOf(code).Some? ==> LinuxMapXKeySymToKeyCode(XKeySymOf(code).value) == Some(code)
  {
  }

  /** Every keysym listed for a key code from KeyCode_J to KeyCode_M maps back to that code. */
  lemma MapBackJToM(code: KeyCode)
    requires KeyCode_J <= code <= KeyCode_M
    ensures XKeySymOf(code).Some? ==> LinuxMapXKeySymToKeyCode(XKeySymOf(code).value) == Some(code)
  {
  }

  /** Every keysym listed for a key code from KeyCode_N to KeyCode_Q maps back to that code. */
  lemma MapBackNToQ(code: KeyCode)
    requires KeyCode_N <= code <= KeyCode_Q
    ensures XKeySymOf(code).Some? ==> LinuxMapXKeySymToKeyCode(XKeySymOf(code).value) == Some(code)
  {
  }

  /** Every keysym listed for a key code from KeyCode_R to KeyCode_U maps back to that code. */
  lemma MapBackRToU(code: KeyCode)
    requires KeyCode_R <= code <= KeyCode_U
    ensures XKeySymOf(code).Some? ==> LinuxMapXKeySymToKeyCode(XKeySymOf(code).value) == Some(code)
  {
  }

  /** Every keysym listed for a key code from KeyCode_V to KeyCode_X maps back to that code. */
  lemma MapBackVToX(code: KeyCode)
    requires KeyCode_V <= code <= KeyCode_X
    ensures XKeySymOf(code).Some? ==> LinuxMapXKeySymToKeyCode(XKeySymOf(code).value) == Some(code)
  {
  }

  /** Every keysym listed for a key code from KeyCode_Y to KeyCode_0 maps back to that code. */
  lemma MapBackYToDigit0(code: KeyCode)
    requires KeyCode_Y <= code <= KeyCode_0
    ensures XKeySymOf(code).Some? ==> LinuxMapXKeySymToKeyCode(XKeySymOf(code).value) == Some(code)
  {
  }

  /** Every keysym listed for a key code from KeyCode_1 to KeyCode_3 maps back to that code. */
  lemma MapBackDigit1ToDigit3(code: KeyCode)
    requires KeyCode_1 <= code <= KeyCode_3
    ensures XKeySymOf(code).Some? ==> LinuxMapXKeySymToKeyCode(XKeySymOf(code).value) == Some(code)
  {
  }

  /** Every keysym listed for a key code from KeyCode_4 to KeyCode_6 maps back to that code. */
  lemma MapBackDigit4ToDigit6(code: KeyCode)
    requires KeyCode_4 <= code <= KeyCode_6
    ensures XKeySymOf(code).Some? ==> LinuxMapXKeySymToKeyCode(XKeySymOf(code).value) == Some(code)
  {
  }

  /** Every keysym listed for a key code from KeyCode_7 to KeyCode_9 maps back to that code. */
  lemma MapBackDigit7ToDigit9(code: KeyCode)
    requires KeyCode_7 <= code <= KeyCode_9
    ensures XKeySymOf(code).Some? ==> LinuxMapXKeySymToKeyCode(XKeySymOf(code).value) == Some(code)
  {
  }

  /** Every keysym listed for a key code from KeyCode_OpenBracket to KeyCode_Semicolon maps back to that code. */
  lemma MapBackOpenBracketToSemicolon(code: KeyCode)
    requires KeyCode_OpenBracket <= code <= KeyCode_Semicolon
    ensures XKeySymOf(code).Some? ==> LinuxMapXKeySymToKeyCode(XKeySymOf(code).value) == Some(code)
  {
  }

  /** Every keysym listed for a key code from KeyCode_Quote to KeyCode_Period maps back to that code. */
  lemma MapBackQuoteToPeriod(code: KeyCode)
    requires KeyCode_Quote <= code <= KeyCode_Period
    ensures XKeySymOf(code).Some? ==> LinuxMapXKeySymToKeyCode(XKeySymOf(code).value) == Some(code)
  {
  }

  /** Every keysym listed for a key code from KeyCode_Slash to KeyCode_Tilde maps back to that code. */
  lemma MapBackSlashToTilde(code: KeyCode)
    requires KeyCode_Slash <= code <= KeyCode_Tilde
    ensures XKeySymOf(code).Some? ==> LinuxMapXKeySymToKeyCode(XKeySymOf(code).value) == Some(code)
  {
  }

  /** Every keysym listed for a key code from KeyCode_Plus to KeyCode_Minus maps back to that code. */
  lemma MapBackPlusToMinus(code: KeyCode)
    requires KeyCode_Plus <= code <= KeyCode_Minus
    ensures XKeySymOf(code).Some? ==> LinuxMapXKeySymToKeyCode(XKeySymOf(code).value) == Some(code)
  {
  }

  /** Every keysym listed for a key code from KeyCode_Num0 to KeyCode_Num1 maps back to that code. */
  lemma MapBackNum0ToNum1(code: KeyCode)
    requires KeyCode_Num0 <= code <= KeyCode_Num1
    ensures XKeySymOf(code).Some? ==> LinuxMapXKeySymToKeyCode(XKeySymOf(code).value) == Some(code)
  {
  }

  /** Every keysym listed for a key code from KeyCode_Num2 to KeyCode_Num3 maps back to that code. */
  lemma MapBackNum2ToNum3(code: KeyCode)
    requires KeyCode_Num2 <= code <= KeyCode_Num3
    ensures XKeySymOf(code).Some? ==> LinuxMapXKeySymToKeyCode(XKeySymOf(code).value) == Some(code)
  {
  }

  /** Every keysym listed for a key code from KeyCode_Num4 to KeyCode_Num5 maps back to that code. */
  lemma MapBackNum4ToNum5(code: KeyCode)
    requires KeyCode_Num4 <= code <= KeyCode_Num5
    ensures XKeySymOf(code).Some? ==> LinuxMapXKeySymToKeyCode(XKeySymOf(code).value) == Some(code)
  {
  }

  /** Every keysym listed for a key code from KeyCode_Num6 to KeyCode_Num7 maps back to that code. */
  lemma MapBackNum6ToNum7(code: KeyCode)
    requires KeyCode_Num6 <= code <= KeyCode_Num7
    ensures XKeySymOf(code).Some? ==> LinuxMapXKeySymToKeyCode(XKeySymOf(code).value) == Some(code)
  {
  }

  /** Every keysym listed for a key code from KeyCode_Num8 to KeyCode_Num9 maps back to that code. */
  lemma MapBackNum8ToNum9(code: KeyCode)
    requires KeyCode_Num8 <= code <= KeyCode_Num9
    ensures XKeySymOf(code).Some? ==> LinuxMapXKeySymToKeyCode(XKeySymOf(code).value) == Some(code)
  {
  }

  /** Every keysym listed for a key code from KeyCode_NumUp to KeyCode_NumDown maps back to that code. */
  lemma MapBackNumUpToNumDown(code: KeyCode)
    requires KeyCode_NumUp <= code <= KeyCode_NumDown
    ensures XKeySymOf(code).Some? ==> LinuxMapXKeySymToKeyCode(XKeySymOf(code).value) == Some(code)
  {
  }

  /** Every keysym listed for a key code from KeyCode_NumLeft to KeyCode_NumRight maps back to that code. */
  lemma MapBackNumLeftToNumRight(code: KeyCode)
    requires KeyCode_NumLeft <= code <= KeyCode_NumRight
    ensures XKeySymOf(code).Some? ==> LinuxMapXKeySymToKeyCode(XKeySymOf(code).value) == Some(code)
  {
  }

  /** Every keysym listed for a key code from KeyCode_NumHome to KeyCode_NumEnd maps back to that code. */
  lemma MapBackNumHomeToNumEnd(code: KeyCode)
    requires KeyCode_NumHome <= code <= KeyCode_NumEnd
    ensures XKeySymOf(code).Some? ==> LinuxMapXKeySymToKeyCode(XKeySymOf(code).value) == Some(code)
  {
  }

  /** Every keysym listed for a key code from KeyCode_NumPageUp to KeyCode_NumEnter maps back to that code. */
  lemma MapBackNumPageUpToNumEnter(code: KeyCode)
    requires KeyCode_NumPageUp <= code <= KeyCode_NumEnter
    ensures XKeySymOf(code).Some? ==> LinuxMapXKeySymToKeyCode(XKeySymOf(code).value) == Some(code)
  {
  }

  /** Every keysym listed for a key code from KeyCode_NumMultiply to KeyCode_NumDivide maps back to that code. */
  lemma MapBackNumMultiplyToNumDivide(code: KeyCode)
    requires KeyCode_NumMultiply <= code <= KeyCode_NumDivide
    ensures XKeySymOf(code).Some? ==> LinuxMapXKeySymToKeyCode(XKeySymOf(code).value) == Some(code)
  {
  }

  /** Every keysym listed for a key code from KeyCode_NumPlus to KeyCode_NumMinus maps back to that code. */
  lemma MapBackNumPlusToNumMinus(code: KeyCode)
    requires KeyCode_NumPlus <= code <= KeyCode_NumMinus
    ensures XKeySymOf(code).Some? ==> LinuxMapXKeySymToKeyCode(XKeySymOf(code).value) == Some(code)
  {
  }

  /** Every keysym listed for a key code from KeyCode_NumClear to KeyCode_NumSeparator maps back to that code. */
  lemma MapBackNumClearToNumSeparator(code: KeyCode)
    requires KeyCode_NumClear <= code <= KeyCode_NumSeparator
    ensures XKeySymOf(code).Some? ==> LinuxMapXKeySymToKeyCode(XKeySymOf(code).value) == Some(code)
  {
  }

  /** Every keysym listed for a key code maps to that key code. The proof goes through the key
      codes a few at a time, since each case evaluates the table up to its line. */
  lemma InverseToLinuxMap(code: KeyCode)
    ensures XKeySymOf(code).Some? ==> LinuxMapXKeySymToKeyCode(XKeySymOf(code).value) == Some(code)
  {
    if code <= KeyCode_RightSuper {
      MapBackEnterToRightSuper(code);
    }
    else if code <= KeyCode_Left {
      MapBackHomeToLeft(code);
    }
    else if code <= KeyCode_F6 {
      MapBackRightToF6(code);
    }
    else if code <= KeyCode_F12 {
      MapBackF7ToF12(code);
    }
    else if code <= KeyCode_Pause {
      MapBackNumLockToPause(code);
    }
    else if code <= KeyCode_E {
      MapBackAToE(code);
    }
    else if code <= KeyCode_I {
      MapBackFToI(code);
    }
    else if code <= KeyCode_M {
      MapBackJToM(code);
    }
    else if code <= KeyCode_Q {
      MapBackNToQ(code);
    }
    else if code <= KeyCode_U {
      MapBackRToU(code);
    }
    else if code <= KeyCode_X {
      MapBackVToX(code);
    }
    else if code <= KeyCode_0 {
      MapBackYToDigit0(code);
    }
    else if code <= KeyCode_3 {
      MapBackDigit1ToDigit3(code);
    }
    else if code <= KeyCode_6 {
      MapBackDigit4ToDigit6(code);
    }
    else if code <= KeyCode_9 {
      MapBackDigit7ToDigit9(code);
    }
    else if code <= KeyCode_Semicolon {
      MapBackOpenBracketToSemicolon(code);
    }
    else if code <= KeyCode_Period {
      MapBackQuoteToPeriod(code);
    }
    else if code <= KeyCode_Tilde {
      MapBackSlashToTilde(code);
    }
    else if code <= KeyCode_Minus {
      MapBackPlusToMinus(code);
    }
    else if code <= KeyCode_Num1 {
      MapBackNum0ToNum1(code);
    }
    else if code <= KeyCode_Num3 {
      MapBackNum2ToNum3(code);
    }
    else if code <= KeyCode_Num5 {
      MapBackNum4ToNum5(code);
    }
    else if code <= KeyCode_Num7 {
      MapBackNum6ToNum7(code);
    }
    else if code <= KeyCode_Num9 {
      MapBackNum8ToNum9(code);
    }
    else if code <= KeyCode_NumDown {
      MapBackNumUpToNumDown(code);
    }
    else if code <= KeyCode_NumRight {
      MapBackNumLeftToNumRight(code);
    }
    else if code <= KeyCode_NumEnd {
      MapBackNumHomeToNumEnd(code);
    }
    else if code <= KeyCode_NumEnter {
      MapBackNumPageUpToNumEnter(code);
    }
    else if code <= KeyCode_NumDivide {
      MapBackNumMultiplyToNumDivide(code);
    }
    else if code <= KeyCode_NumMinus {
      MapBackNumPlusToNumMinus(code);
    }
    else {
      MapBackNumClearToNumSeparator(code);
    }
  }

  /** The Linux table is one-to-one: a keysym maps to a key code exactly when it is the keysym
      listed for that code, so any keysym it does not list gives None. */
  lemma LinuxMapRoundTrip(keySym: nat, code: KeyCode)
    ensures LinuxMapXKeySymToKeyCode(keySym) == Some(code) <==> XKeySymOf(code) == Some(keySym)
  {
    LinuxMapToInverse(keySym);
    InverseToLinuxMap(code);
  }

  /** The Linux table's examples: XK_a and XK_KP_0 map to A and Num0, and the ordinary space
      keysym is not mapped at all. */
  lemma LinuxMapExamples()
    ensures LinuxMapXKeySymToKeyCode(XK_a) == Some(KeyCode_A)
    ensures LinuxMapXKeySymToKeyCode(XK_KP_0) == Some(KeyCode_Num0)
    ensures LinuxMapXKeySymToKeyCode(XK_space) == None
  {
  }

  /** The keypad space keysym is the only one mapped to Space. */
  lemma OnlyKeypadSpaceIsSpace(keySym: nat)
    ensures LinuxMapXKeySymToKeyCode(keySym) == Some(KeyCode_Space) <==> keySym == XK_KP_Space
  {
    LinuxMapRoundTrip(keySym, KeyCode_Space);
  }

  /** The table with the ordinary space bar's keysym mapped to Space as well, as a keyboard's
      space bar reports XK_space and the keypad's space key XK_KP_Space. */
  function LinuxMapXKeySymToKeyCodeIntended(keySym: nat): Option<KeyCode> {
    if keySym == XK_space then Some(KeyCode_Space) else LinuxMapXKeySymToKeyCode(keySym)
  }

  /** With the space bar listed, both space keysyms give Space, and every other keysym maps as
      in the table as written. */
  lemma SpaceBarMapsToSpace(keySym: nat)
    ensures LinuxMapXKeySymToKeyCodeIntended(keySym) == Some(KeyCode_Space) <==>
              keySym == XK_space || keySym == XK_KP_Space
    ensures keySym != XK_space ==>
              LinuxMapXKeySymToKeyCodeIntended(keySym) == LinuxMapXKeySymToKeyCode(keySym)
  {
    OnlyKeypadSpaceIsSpace(keySym);
  }

  /** No virtual key is both in the switch and in the table, so the table never overwrites a
      key code the switch chose. */
  lemma Win32SwitchAndTableDisjoint(vk: nat, isE0: bool)
    ensures Win32SwitchKey(vk, isE0).Some? ==> Win32TableKey(vk) == None
  {
    Win32SwitchDomain(vk, isE0);
    Win32EditingKeysDomain(vk);
    Win32FunctionKeysDomain(vk);
    Win32LockKeysDomain(vk);
    Win32LetterKeysDomain(vk);
    Win32DigitKeysDomain(vk);
    Win32PunctuationKeysDomain(vk);
    Win32KeypadKeysDomain(vk);
  }


  /** The fake key 255 is always discarded, whatever the other arguments. */
  lemma FakeKeyDiscarded(scanCode: nat, isE0: bool, shiftVK: nat -> nat)
    ensures Win32MapVKToKeyCode(255, scanCode, isE0, shiftVK) == None
  {
  }

  /** The E0 prefix selects the right-hand CONTROL and ALT and the keypad ENTER; without it the
      left-hand keys and the main ENTER. */
  lemma E0SelectsRightHandKeys(scanCode: nat, shiftVK: nat -> nat)
    ensures Win32MapVKToKeyCode(VK_CONTROL, scanCode, true, shiftVK) == Some(KeyCode_RightControl)
    ensures Win32MapVKToKeyCode(VK_CONTROL, scanCode, false, shiftVK) == Some(KeyCode_LeftControl)
    ensures Win32MapVKToKeyCode(VK_MENU, scanCode, true, shiftVK) == Some(KeyCode_RightAlt)
    ensures Win32MapVKToKeyCode(VK_MENU, scanCode, false, shiftVK) == Some(KeyCode_LeftAlt)
    ensures Win32MapVKToKeyCode(VK_RETURN, scanCode, true, shiftVK) == Some(KeyCode_NumEnter)
    ensures Win32MapVKToKeyCode(VK_RETURN, scanCode, false, shiftVK) == Some(KeyCode_Enter)
  {
    Win32SwitchAndTableDisjoint(VK_CONTROL, true);
    Win32SwitchAndTableDisjoint(VK_MENU, true);
    Win32SwitchAndTableDisjoint(VK_RETURN, true);
  }

  /** The navigation cluster: each of INSERT, DELETE, HOME, END, PRIOR, NEXT and the arrows is
      the keypad key without E0 and the main key with it. */
  lemma E0SelectsMainNavigationKeys(scanCode: nat, shiftVK: nat -> nat)
    ensures Win32MapVKToKeyCode(VK_INSERT, scanCode, false, shiftVK) == Some(KeyCode_NumInsert)
    ensures Win32MapVKToKeyCode(VK_INSERT, scanCode, true, shiftVK) == Some(KeyCode_Insert)
    ensures Win32MapVKToKeyCode(VK_DELETE, scanCode, false, shiftVK) == Some(KeyCode_NumDelete)
    ensures Win32MapVKToKeyCode(VK_DELETE, scanCode, true, shiftVK) == Some(KeyCode_Delete)
    ensures Win32MapVKToKeyCode(VK_HOME, scanCode, false, shiftVK) == Some(KeyCode_NumHome)
    ensures Win32MapVKToKeyCode(VK_HOME, scanCode, true, shiftVK) == Some(KeyCode_Home)
    ensures Win32MapVKToKeyCode(VK_END, scanCode, false, shiftVK) == Some(KeyCode_NumEnd)
    ensures Win32MapVKToKeyCode(VK_END, scanCode, true, shiftVK) == Some(KeyCode_End)
    ensures Win32MapVKToKeyCode(VK_PRIOR, scanCode, false, shiftVK) == Some(KeyCode_NumPageUp)
    ensures Win32MapVKToKeyCode(VK_PRIOR, scanCode, true, shiftVK) == Some(KeyCode_PageUp)
    ensures Win32MapVKToKeyCode(VK_NEXT, scanCode, false, shiftVK) == Some(KeyCode_NumPageDown)
    ensures Win32MapVKToKeyCode(VK_NEXT, scanCode, true, shiftVK) == Some(KeyCode_PageDown)
    ensures Win32MapVKToKeyCode(VK_UP, scanCode, false, shiftVK) == Some(KeyCode_NumUp)
    ensures Win32MapVKToKeyCode(VK_UP, scanCode, true, shiftVK) == Some(KeyCode_Up)
    ensures Win32MapVKToKeyCode(VK_DOWN, scanCode, false, shiftVK) == Some(KeyCode_NumDown)
    ensures Win32MapVKToKeyCode(VK_DOWN, scanCode, true, shiftVK) == Some(KeyCode_Down)
    ensures Win32MapVKToKeyCode(VK_LEFT, scanCode, false, shiftVK) == Some(KeyCode_NumLeft)
    ensures Win32MapVKToKeyCode(VK_LEFT, scanCode, true, shiftVK) == Some(KeyCode_Left)
    ensures Win32MapVKToKeyCode(VK_RIGHT, scanCode, false, shiftVK) == Some(KeyCode_NumRight)
    ensures Win32MapVKToKeyCode(VK_RIGHT, scanCode, true, shiftVK) == Some(KeyCode_Right)
  {
    EditingKeysWithoutE0(scanCode, shiftVK);
    EditingKeysWithE0(scanCode, shiftVK);
    ArrowKeysWithoutE0(scanCode, shiftVK);
    ArrowKeysWithE0(scanCode, shiftVK);
  }

  /** Without E0, INSERT, DELETE, HOME, END, PRIOR and NEXT are the keypad keys. */
  lemma EditingKeysWithoutE0(scanCode: nat, shiftVK: nat -> nat)
    ensures Win32MapVKToKeyCode(VK_INSERT, scanCode, false, shiftVK) == Some(KeyCode_NumInsert)
    ensures Win32MapVKToKeyCode(VK_DELETE, scanCode, false, shiftVK) == Some(KeyCode_NumDelete)
    ensures Win32MapVKToKeyCode(VK_HOME, scanCode, false, shiftVK) == Some(KeyCode_NumHome)
    ensures Win32MapVKToKeyCode(VK_END, scanCode, false, shiftVK) == Some(KeyCode_NumEnd)
    ensures Win32MapVKToKeyCode(VK_PRIOR, scanCode, false, shiftVK) == Some(KeyCode_NumPageUp)
    ensures Win32MapVKToKeyCode(VK_NEXT, scanCode, false, shiftVK) == Some(KeyCode_NumPageDown)
  {
    Win32SwitchKeyMapped(VK_INSERT, scanCode, false, shiftVK);
    Win32SwitchKeyMapped(VK_DELETE, scanCode, false, shiftVK);
    Win32SwitchKeyMapped(VK_HOME, scanCode, false, shiftVK);
    Win32SwitchKeyMapped(VK_END, scanCode, false, shiftVK);
    Win32SwitchKeyMapped(VK_PRIOR, scanCode, false, shiftVK);
    Win32SwitchKeyMapped(VK_NEXT, scanCode, false, shiftVK);
  }

  /** With E0, INSERT, DELETE, HOME, END, PRIOR and NEXT are the main keys. */
  lemma EditingKeysWithE0(scanCode: nat, shiftVK: nat -> nat)
    ensures Win32MapVKToKeyCode(VK_INSERT, scanCode, true, shiftVK) == Some(KeyCode_Insert)
    ensures Win32MapVKToKeyCode(VK_DELETE, scanCode, true, shiftVK) == Some(KeyCode_Delete)
    ensures Win32MapVKToKeyCode(VK_HOME, scanCode, true, shiftVK) == Some(KeyCode_Home)
    ensures Win32MapVKToKeyCode(VK_END, scanCode, true, shiftVK) == Some(KeyCode_End)
    ensures Win32MapVKToKeyCode(VK_PRIOR, scanCode, true, shiftVK) == Some(KeyCode_PageUp)
    ensures Win32MapVKToKeyCode(VK_NEXT, scanCode, true, shiftVK) == Some(KeyCode_PageDown)
  {
    Win32SwitchKeyMapped(VK_INSERT, scanCode, true, shiftVK);
    Win32SwitchKeyMapped(VK_DELETE, scanCode, true, shiftVK);
    Win32SwitchKeyMapped(VK_HOME, scanCode, true, shiftVK);
    Win32SwitchKeyMapped(VK_END, scanCode, true, shiftVK);
    Win32SwitchKeyMapped(VK_PRIOR, scanCode, true, shiftVK);
    Win32SwitchKeyMapped(VK_NEXT, scanCode, true, shiftVK);
  }

  /** Without E0 the arrows are the keypad arrows. */
  lemma ArrowKeysWithoutE0(scanCode: nat, shiftVK: nat -> nat)
    ensures Win32MapVKToKeyCode(VK_UP, scanCode, false, shiftVK) == Some(KeyCode_NumUp)
    ensures Win32MapVKToKeyCode(VK_DOWN, scanCode, false, shiftVK) == Some(KeyCode_NumDown)
    ensures Win32MapVKToKeyCode(VK_LEFT, scanCode, false, shiftVK) == Some(KeyCode_NumLeft)
    ensures Win32MapVKToKeyCode(VK_RIGHT, scanCode, false, shiftVK) == Some(KeyCode_NumRight)
  {
    Win32SwitchKeyMapped(VK_UP, scanCode, false, shiftVK);
    Win32SwitchKeyMapped(VK_DOWN, scanCode, false, shiftVK);
    Win32SwitchKeyMapped(VK_LEFT, scanCode, false, shiftVK);
    Win32SwitchKeyMapped(VK_RIGHT, scanCode, false, shiftVK);
  }

  /** With E0 the arrows are the main arrows. */
  lemma ArrowKeysWithE0(scanCode: nat, shiftVK: nat -> nat)
    ensures Win32MapVKToKeyCode(VK_UP, scanCode, true, shiftVK) == Some(KeyCode_Up)
    ensures Win32MapVKToKeyCode(VK_DOWN, scanCode, true, shiftVK) == Some(KeyCode_Down)
    ensures Win32MapVKToKeyCode(VK_LEFT, scanCode, true, shiftVK) == Some(KeyCode_Left)
    ensures Win32MapVKToKeyCode(VK_RIGHT, scanCode, true, shiftVK) == Some(KeyCode_Right)
  {
    Win32SwitchKeyMapped(VK_UP, scanCode, true, shiftVK);
    Win32SwitchKeyMapped(VK_DOWN, scanCode, true, shiftVK);
    Win32SwitchKeyMapped(VK_LEFT, scanCode, true, shiftVK);
    Win32SwitchKeyMapped(VK_RIGHT, scanCode, true, shiftVK);
  }

  /** A key the switch handles, other than VK_CLEAR, maps to its switch entry whatever the E0 flag. */
  lemma Win32SwitchKeyMapped(vk: nat, scanCode: nat, isE0: bool, shiftVK: nat -> nat)
    requires Win32SwitchKey(vk, isE0).Some? && vk != VK_CLEAR
    ensures Win32MapVKToKeyCode(vk, scanCode, isE0, shiftVK) == Win32SwitchKey(vk, isE0)
  {
    Win32SwitchDomain(vk, isE0);
    Win32MapCoverage(vk, scanCode, isE0, shiftVK);
  }

  /** VK_CLEAR (keypad 5 with NUM LOCK off) is NumClear without E0 and rejected with it, and the
      keypad 5 virtual key itself is in neither the switch nor the table. */
  lemma ClearAndNumpad5(scanCode: nat, isE0: bool, shiftVK: nat -> nat)
    ensures Win32MapVKToKeyCode(VK_CLEAR, scanCode, false, shiftVK) == Some(KeyCode_NumClear)
    ensures Win32MapVKToKeyCode(VK_CLEAR, scanCode, true, shiftVK) == None
    ensures Win32MapVKToKeyCode(VK_NUMPAD5, scanCode, isE0, shiftVK) == None
  {
    Win32SwitchAndTableDisjoint(VK_CLEAR, false);
  }

  /** VK_SHIFT is mapped as the key MapVirtualKey names for its scan code: the left-hand or
      right-hand shift key, or whatever that key maps to on its own. */
  lemma ShiftIsRemapped(scanCode: nat, isE0: bool, shiftVK: nat -> nat)
    ensures shiftVK(scanCode) == VK_LSHIFT ==>
              Win32MapVKToKeyCode(VK_SHIFT, scanCode, isE0, shiftVK) == Some(KeyCode_LeftShift)
    ensures shiftVK(scanCode) == VK_RSHIFT ==>
              Win32MapVKToKeyCode(VK_SHIFT, scanCode, isE0, shiftVK) == Some(KeyCode_RightShift)
    ensures shiftVK(scanCode) != VK_SHIFT && shiftVK(scanCode) != 255 ==>
              Win32MapVKToKeyCode(VK_SHIFT, scanCode, isE0, shiftVK) ==
              Win32MapVKToKeyCode(shiftVK(scanCode), scanCode, isE0, shiftVK)
  {
  }

  /** The editing and modifier key lines recognise exactly the keys they list, none of
      which the switch handles. */
  lemma Win32EditingKeysDomain(vk: nat)
    ensures Win32EditingKeys(vk).Some? <==> vk in Win32EditingVKs
    ensures vk in Win32SwitchKeys ==> Win32EditingKeys(vk) == None
  {
  }

  /** The function key lines recognise exactly the keys they list, none of
      which the switch handles. */
  lemma Win32FunctionKeysDomain(vk: nat)
    ensures Win32FunctionKeys(vk).Some? <==> vk in Win32FunctionVKs
    ensures vk in Win32SwitchKeys ==> Win32FunctionKeys(vk) == None
  {
  }

  /** The lock and system key lines recognise exactly the keys they list, none of
      which the switch handles. */
  lemma Win32LockKeysDomain(vk: nat)
    ensures Win32LockKeys(vk).Some? <==> vk in Win32LockVKs
    ensures vk in Win32SwitchKeys ==> Win32LockKeys(vk) == None
  {
  }

  /** The letter lines recognise exactly the keys they list, none of
      which the switch handles. */
  lemma Win32LetterKeysDomain(vk: nat)
    ensures Win32LetterKeys(vk).Some? <==> vk in Win32LetterVKs
    ensures vk in Win32SwitchKeys ==> Win32LetterKeys(vk) == None
  {
  }

  /** The digit lines recognise exactly the keys they list, none of
      which the switch handles. */
  lemma Win32DigitKeysDomain(vk: nat)
    ensures Win32DigitKeys(vk).Some? <==> vk in Win32DigitVKs
    ensures vk in Win32SwitchKeys ==> Win32DigitKeys(vk) == None
  {
  }

  /** The punctuation lines recognise exactly the keys they list, none of
      which the switch handles. */
  lemma Win32PunctuationKeysDomain(vk: nat)
    ensures Win32PunctuationKeys(vk).Some? <==> vk in Win32PunctuationVKs
    ensures vk in Win32SwitchKeys ==> Win32PunctuationKeys(vk) == None
  {
  }

  /** The keypad lines recognise exactly the keys they list, none of
      which the switch handles. */
  lemma Win32KeypadKeysDomain(vk: nat)
    ensures Win32KeypadKeys(vk).Some? <==> vk in Win32KeypadVKs
    ensures vk in Win32SwitchKeys ==> Win32KeypadKeys(vk) == None
  {
  }

  /** The table recognises exactly the virtual keys its lines list. */
  lemma Win32TableDomain(vk: nat)
    ensures Win32TableKey(vk).Some? <==> vk in Win32TableKeys
  {
    Win32EditingKeysDomain(vk);
    Win32FunctionKeysDomain(vk);
    Win32LockKeysDomain(vk);
    Win32LetterKeysDomain(vk);
    Win32DigitKeysDomain(vk);
    Win32PunctuationKeysDomain(vk);
    Win32KeypadKeysDomain(vk);
  }

  /** The switch recognises exactly the virtual keys it has cases for. */
  lemma Win32SwitchDomain(vk: nat, isE0: bool)
    ensures Win32SwitchKey(vk, isE0).Some? <==> vk in Win32SwitchKeys
  {
  }

  /** Which virtual keys Win32MapVKToKeyCode accepts, for every input: after the VK_SHIFT
      remapping, a key is mapped exactly when it is listed in the table or handled by the switch,
      except the fake key 255 and VK_CLEAR with E0; a table key gets its table entry and a switch
      key its switch entry. Every other virtual key (VK_NUMPAD5 among them) returns false. */
  lemma Win32MapCoverage(vkCode: nat, scanCode: nat, isE0: bool, shiftVK: nat -> nat)
    ensures var vk := if vkCode == VK_SHIFT then shiftVK(scanCode) else vkCode;
            var r := Win32MapVKToKeyCode(vkCode, scanCode, isE0, shiftVK);
            && (r.Some? <==> vkCode != 255 && !(vk == VK_CLEAR && isE0) &&
                             (vk in Win32TableKeys || vk in Win32SwitchKeys))
            && (vkCode != 255 && vk in Win32TableKeys ==> r == Win32TableKey(vk))
            && (vkCode != 255 && vk in Win32SwitchKeys && !(vk == VK_CLEAR && isE0) ==>
                  r == Win32SwitchKey(vk, isE0))
  {
    var vk := if vkCode == VK_SHIFT then shiftVK(scanCode) else vkCode;
    Win32TableDomain(vk);
    Win32SwitchDomain(vk, isE0);
    Win32SwitchAndTableDisjoint(vk, isE0);
  }
}
