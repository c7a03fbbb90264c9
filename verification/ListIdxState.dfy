/** The fields of a `ListIdx` as one value, and what each operation makes of them.
    All arithmetic is 32-bit and wraps, so every function is total. */
module ListIdxState {
  import opened Words
  import opened Keys

  datatype Idx = Idx(
    win: u32,        // number of visible cells
    size: u32,       // number of list entries
    jump: u16,       // steps of a page key
    cursor: u32,     // cursor relative to the window
    offset: u32,     // first visible entry
    lbound: u32,     // scrolling down happens at or below this cell
    ubound: u32)     // scrolling up happens at or above this cell

  const DEFAULT_JUMP: u16 := 3

  function CursorAbs(i: Idx): u32 {
    Add32(i.offset, i.cursor)
  }

  predicate EndReached(i: Idx) {
    Add32(i.offset, i.win) >= i.size
  }

  /** Last cell the cursor may take. */
  function HardUbound(i: Idx): u32 {
    if i.win != 0 && i.size != 0 then (if i.win < i.size then i.win else i.size) - 1 else 0
  }

  function Clamped(i: Idx): Idx {
    if i.cursor > HardUbound(i) then i.(cursor := HardUbound(i)) else i
  }

  function SanityCheck(i: Idx): Idx {
    if i.offset != 0 && Add32(i.offset, i.win) > i.size then
      Clamped(i.(
        cursor := Add32(i.cursor, Sub32(Add32(i.offset, i.win), i.size)),
        offset := if i.size > i.win then i.size - i.win else 0))
    else
      Clamped(i)
  }

  function Bounded(i: Idx, bnd: u32): u32 {
    if bnd < i.win then bnd else if i.win != 0 then i.win - 1 else 0
  }

  function LboundSet(i: Idx, bnd: u32): Idx {
    i.(lbound := Bounded(i, bnd))
  }

  function UboundSet(i: Idx, bnd: u32): Idx {
    i.(ubound := Bounded(i, bnd))
  }

  function CursorBoundSet(i: Idx, bnd: u32): Idx {
    if i.win == 0 then i
    else
      var b := if i.win < Add32(bnd, 1) then i.win - 1 else bnd;
      UboundSet(LboundSet(i, b), Sub32(i.win - 1, b))
  }

  function TextModeSet(i: Idx): Idx {
    UboundSet(LboundSet(i, i.win), 0)
  }

  function WinSet(i: Idx, win: u32): Idx {
    var half := win / 2;
    var low := if win % 2 == 0 then Sub32(half, 1) else half;
    UboundSet(LboundSet(SanityCheck(i.(win := win)), low), half)
  }

  function SizeSet(i: Idx, size: u32): Idx {
    SanityCheck(i.(size := size))
  }

  function SizeJumpSet(i: Idx, jump: u16): Idx {
    i.(jump := if jump < 1 then 1 else jump)
  }

  function Reset(i: Idx): Idx {
    i.(cursor := 0, offset := 0)
  }

  function CursorEndSet(i: Idx): Idx {
    if i.win == 0 || i.size == 0 then i
    else i.(cursor := HardUbound(i), offset := if i.size > i.win then i.size - i.win else 0)
  }

  predicate CursorEndMoves(i: Idx) {
    i.win != 0 && i.size != 0 && (i.cursor != HardUbound(i) || !EndReached(i))
  }

  function IncOffset(i: Idx): Idx {
    if EndReached(i) then i else i.(offset := Add32(i.offset, 1))
  }

  function DecOffset(i: Idx): Idx {
    if i.offset == 0 then i else i.(offset := i.offset - 1)
  }

  function IncCursor(i: Idx): Idx {
    if i.win == 0 || i.size == 0 || i.cursor == HardUbound(i) then i
    else i.(cursor := Add32(i.cursor, 1))
  }

  function DecCursor(i: Idx): Idx {
    if i.cursor == 0 then i else i.(cursor := i.cursor - 1)
  }

  function Inc(i: Idx): Idx {
    if i.win == 0 || i.size == 0 then i
    else if i.cursor >= i.ubound && !EndReached(i) then i.(offset := Add32(i.offset, 1))
    else if i.cursor < HardUbound(i) then i.(cursor := i.cursor + 1)
    else i
  }

  function Dec(i: Idx): Idx {
    if i.cursor <= i.lbound && i.offset != 0 then i.(offset := i.offset - 1)
    else if i.cursor != 0 then i.(cursor := i.cursor - 1)
    else i
  }

  function IncN(i: Idx, n: nat): Idx {
    if n == 0 then i else Inc(IncN(i, n - 1))
  }

  predicate IncNMoves(i: Idx, n: nat) {
    n != 0 && (IncNMoves(i, n - 1) || IncN(i, n) != IncN(i, n - 1))
  }

  function DecN(i: Idx, n: nat): Idx {
    if n == 0 then i else Dec(DecN(i, n - 1))
  }

  predicate DecNMoves(i: Idx, n: nat) {
    n != 0 && (DecNMoves(i, n - 1) || DecN(i, n) != DecN(i, n - 1))
  }

  function Insert(i: Idx): Idx {
    Inc(SizeSet(i, Add32(i.size, 1)))
  }

  function InsertN(i: Idx, n: nat): Idx {
    if n == 0 then i else Insert(InsertN(i, n - 1))
  }

  function CurrErase(i: Idx): Idx {
    if i.size == 0 then i
    else if EndReached(i) && i.size > i.win then SizeSet(IncCursor(DecOffset(i)), i.size - 1)
    else SizeSet(i, i.size - 1)
  }

  function PrevErase(i: Idx): Idx {
    if CursorAbs(i) == 0 then i
    else if EndReached(i) && i.size > i.win then SizeSet(DecOffset(i), Sub32(i.size, 1))
    else SizeSet(Dec(i), Sub32(i.size, 1))
  }

  // ---- keys

  datatype KeyMove = KeyMove(idx: Idx, changed: bool)

  /** Page keys are disabled under the names of their letters. */
  predicate Disabled(key: KeyUser, disabled: string) {
    if IsCode(key, KEY_PGUP) then 'K' in disabled
    else if IsCode(key, KEY_PGDN) then 'J' in disabled
    else key.Print? && key.ch in disabled
  }

  function ListKey(i: Idx, key: KeyUser, disabled: string): KeyMove {
    if Disabled(key, disabled) then KeyMove(i, false)
    else if IsDown(key) then KeyMove(Inc(i), Inc(i) != i)
    else if IsUp(key) then KeyMove(Dec(i), Dec(i) != i)
    else if IsDownJump(key) then KeyMove(IncN(i, i.jump), IncNMoves(i, i.jump))
    else if IsUpJump(key) then KeyMove(DecN(i, i.jump), DecNMoves(i, i.jump))
    else if IsHome(key) then KeyMove(Reset(i), Reset(i) != i)
    else if IsEnd(key) then KeyMove(CursorEndSet(i), CursorEndMoves(i))
    else KeyMove(i, false)
  }
}
