/** The key events BrowserSource::SendKeyClick hands to the engine for one
    key press or release. UTF-8 decoding (`to_wide`) is the function
    parameter `toWide`, which yields the wide characters of the text. */
module KeyEvents {
  import opened WindowsKeycode
  import opened KeysymTranslation

  datatype KeyEventType = RawKeyDown | KeyUp | Char

  /** The fields of CefKeyEvent that SendKeyClick sets; `character` is a
      16-bit code unit. */
  datatype KeyEvent = KeyEvent(
    kind: KeyEventType,
    windowsKeyCode: int,
    nativeKeyCode: int,
    character: int,
    modifiers: int)

  /** The parts of obs_key_event that SendKeyClick reads. */
  datatype KeyInput = KeyInput(
    text: string,
    nativeVkey: nat,
    nativeScancode: nat,
    nativeModifiers: nat)

  /** Storing a wide character into a 16-bit field keeps its low 16 bits. */
  function Char16(w: nat): (c: nat)
    ensures c < 0x1_0000
    ensures w < 0x1_0000 ==> c == w
    ensures (w - c) % 0x1_0000 == 0
  {
    w % 0x1_0000
  }

  /** The character of the event: the first wide character of non-empty
      text, and 0 (the zero-initialised field) otherwise. */
  function EventCharacter(text: string, toWide: string -> seq<nat>): (c: nat)
    ensures c < 0x1_0000
    ensures text != [] && |toWide(text)| > 0 ==> c == Char16(toWide(text)[0])
    ensures text == [] || |toWide(text)| == 0 ==> c == 0
  {
    if text != [] && |toWide(text)| > 0 then Char16(toWide(text)[0]) else 0
  }

  /** The events of one SendKeyClick. On Linux the key code is translated
      from the X keysym, and so is the character of the CHAR event. */
  function KeyEventsFor(input: KeyInput, keyUp: bool, linux: bool, toWide: string -> seq<nat>): (events: seq<KeyEvent>)
    ensures |events| == (if !keyUp && input.text != [] then 2 else 1)
    ensures events[0].kind == (if keyUp then KeyUp else RawKeyDown)
    ensures |events| == 2 ==> events[1].kind == Char && events[1].character == events[0].character
    ensures forall e :: e in events ==> e.modifiers == input.nativeModifiers && e.nativeKeyCode == input.nativeScancode
    ensures forall e :: e in events ==> e.character == EventCharacter(input.text, toWide)
    ensures linux ==> forall e :: e in events ==> IsKeyCode(e.windowsKeyCode)
  {
    var code := if linux then KeyboardCodeFromXKeysym(input.nativeVkey) else input.nativeVkey;
    var first := KeyEvent(if keyUp then KeyUp else RawKeyDown, code, input.nativeScancode,
                          EventCharacter(input.text, toWide), input.nativeModifiers);
    if input.text != [] && !keyUp then
      var charCode := if linux then KeyboardCodeFromXKeysym(first.character) else first.character;
      [first, first.(kind := Char, windowsKeyCode := charCode)]
    else
      [first]
  }

  /** The key code of the first event is the translated native key on Linux
      and the native key itself elsewhere; the CHAR event's code comes from
      the typed character, not from the key. */
  lemma KeyCodesOfEvents(input: KeyInput, keyUp: bool, linux: bool, toWide: string -> seq<nat>)
    ensures var events := KeyEventsFor(input, keyUp, linux, toWide);
            var c := EventCharacter(input.text, toWide);
            && events[0].windowsKeyCode == (if linux then KeyboardCodeFromXKeysym(input.nativeVkey) else input.nativeVkey)
            && (|events| == 2 ==>
                  events[1].windowsKeyCode == (if linux then KeyboardCodeFromXKeysym(c) else c))
  {
  }

  /** On Linux a typed Latin letter, in either case, gives a CHAR event whose
      key code is that letter's VKEY_A..VKEY_Z code. */
  lemma TypedLetterGivesLetterKey(input: KeyInput, toWide: string -> seq<nat>, k: nat)
    requires k < 26 && input.text != []
    requires |toWide(input.text)| > 0 && (toWide(input.text)[0] == 0x61 + k || toWide(input.text)[0] == 0x41 + k)
    ensures KeyEventsFor(input, false, true, toWide)[1].windowsKeyCode == VKEY_A + k
  {
    LetterCaseFolds(k);
  }
}
