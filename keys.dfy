/** The terminal key events (crossterm's `KeyEvent`) the input code inspects. */
module Keys {

  datatype KeyCode =
    | Char(c: char)
    | Enter | Esc | Tab | BackTab | Backspace | Delete | Insert
    | Home | End | PageUp | PageDown | Up | Down | Left | Right
    | F(n: nat)
    | Null | CapsLock | ScrollLock | NumLock | PrintScreen | Pause | Menu | KeypadBegin
    | Media(id: nat)
    | ModifierKey(id: nat)

  /** The CONTROL, ALT and SHIFT bits of `KeyModifiers`. */
  datatype Modifiers = Modifiers(ctrl: bool, alt: bool, shift: bool)

  const NoModifiers := Modifiers(false, false, false)

  datatype KeyEvent = KeyEvent(code: KeyCode, modifiers: Modifiers)
}
