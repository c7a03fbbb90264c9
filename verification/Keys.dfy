/** User input: printable characters and control codes with their modifiers. */
module Keys {
  import opened Words

  datatype KeyUser =
    | NoKey
    | Print(ch: char, shift: bool, ctrl: bool)
    | Ctrl(code: u16, shift: bool, ctrl: bool)

  const KEY_CTRL_A: u16 := 0x01
  const KEY_CTRL_C: u16 := 0x03
  const KEY_BACKSPACE_WIN: u16 := 0x08
  const KEY_CTRL_X: u16 := 0x18
  const KEY_BACKSPACE: u16 := 0x7F
  const KEY_UP: u16 := 1000
  const KEY_DOWN: u16 := 1001
  const KEY_LEFT: u16 := 1002
  const KEY_RIGHT: u16 := 1003
  const KEY_HOME: u16 := 1004
  const KEY_DELETE: u16 := 1006
  const KEY_END: u16 := 1007
  const KEY_PGUP: u16 := 1008
  const KEY_PGDN: u16 := 1009

  const BOUNDARIES := " .,;:-_(){}[]\"'/\\+*=%<>"

  predicate IsCode(key: KeyUser, code: u16) {
    key.Ctrl? && key.code == code
  }

  predicate IsChar(key: KeyUser, ch: char) {
    key.Print? && key.ch == ch
  }

  predicate IsBackspace(key: KeyUser) {
    IsCode(key, KEY_BACKSPACE) || IsCode(key, KEY_BACKSPACE_WIN)
  }

  predicate IsUp(key: KeyUser) { IsCode(key, KEY_UP) || IsChar(key, 'k') }

  predicate IsDown(key: KeyUser) { IsCode(key, KEY_DOWN) || IsChar(key, 'j') }

  predicate IsUpJump(key: KeyUser) { IsCode(key, KEY_PGUP) || IsChar(key, 'K') }

  predicate IsDownJump(key: KeyUser) { IsCode(key, KEY_PGDN) || IsChar(key, 'J') }

  predicate IsHome(key: KeyUser) { IsCode(key, KEY_HOME) || IsChar(key, 'g') }

  predicate IsEnd(key: KeyUser) { IsCode(key, KEY_END) || IsChar(key, 'G') }

  predicate HasShift(key: KeyUser) {
    !key.NoKey? && key.shift
  }

  predicate HasCtrl(key: KeyUser) {
    !key.NoKey? && key.ctrl
  }

  predicate IsBoundary(ch: char) {
    ch in BOUNDARIES
  }

  lemma NullIsNoBoundary()
    ensures !IsBoundary('\0')
  {
  }
}
