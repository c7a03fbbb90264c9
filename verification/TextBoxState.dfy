/** The fields of a `TextBox` as one value, and what each operation makes of them. */
module TextBoxState {
  import opened Decimals
  import opened Words
  import opened Keys
  import opened ListIdxState
  import opened ListIdxLaws
  import opened FlatEditor

  datatype Config = Config(
    width: nat, lenMax: u16, password: bool, numbersOnly: bool,
    frame: bool, padding: bool, cursorShow: bool)

  datatype Box = Box(
    cfg: Config,
    focus: bool,
    dirty: bool,
    bytes: string,      // the accepted text as handed out, before its conversion
    current: string,    // the accepted text
    work: string,       // the text being edited
    clip: string,
    front: Idx,         // the cursor
    back: Idx)          // the other end of the selection

  datatype Handled = Handled(box: Box, done: bool)

  function Trunc16(n: nat): u16 { n % TWO_16 }

  function Trunc32(n: nat): u32 { n % TWO_32 }

  /** A focused box: both cursors move over its text and the place behind it. */
  predicate Agrees(b: Box) {
    b.front.size == b.back.size == |b.work| + 1
  }

  predicate Good(b: Box) {
    && Usable(b.front) && Usable(b.back) && SameShape(b.front, b.back)
    && (b.focus ==> Agrees(b))
  }

  function Low(b: Box): Idx {
    if CursorAbs(b.front) > CursorAbs(b.back) then b.back else b.front
  }

  function High(b: Box): Idx {
    if CursorAbs(b.front) > CursorAbs(b.back) then b.front else b.back
  }

  /** The text without its selection. */
  function Shortened(b: Box): string
    requires Good(b) && b.focus
  {
    b.work[..CursorAbs(Low(b))] + b.work[CursorAbs(High(b))..]
  }

  /** Both cursors once the selection is gone. */
  function Collapsed(b: Box): Idx
    requires Good(b) && b.focus
  {
    SizeSet(Low(b), |Shortened(b)| + 1)
  }

  lemma CollapsedInRange(b: Box)
    requires Good(b) && b.focus
    ensures Usable(Collapsed(b)) && SameShape(b.front, Collapsed(b))
    ensures Collapsed(b).size == |Shortened(b)| + 1
    ensures CursorAbs(Collapsed(b)) == Abs(Collapsed(b)) <= |Shortened(b)|
  {
    ResizeLaw(Low(b), |Shortened(b)| + 1);
  }

  /** The characters that may be inserted, in 64 bits: what is left of the text must not be longer than
      the limit. */
  function FreeSpace(used: u64, ins: string, lenMax: u16): u64 {
    Sub64(Min(used + |ins|, lenMax), used)
  }

  function SelectionReplace(b: Box, ins: string): Box
    requires Good(b) && b.focus
  {
    CollapsedInRange(b);
    var rest := Shortened(b);
    var at := CursorAbs(Collapsed(b));
    var n := FreeSpace(|rest|, ins, b.cfg.lenMax);
    var idx := InsertN(Collapsed(b), n);
    b.(work := rest[..at] + ins[..Min(n, |ins|)] + rest[at..], front := idx, back := idx)
  }

  function ClipboardSet(b: Box): Box
    requires Good(b)
  {
    if !b.focus then b.(clip := b.bytes)
    else b.(clip := b.work[CursorAbs(Low(b))..CursorAbs(High(b))])
  }

  // ---- navigation

  datatype Move = Move(front: Idx, done: bool, changed: bool)

  predicate IsJump(key: KeyUser) {
    (IsCode(key, KEY_LEFT) || IsCode(key, KEY_RIGHT)) && HasCtrl(key)
  }

  /** The word jump counts in 16 bits. */
  predicate Countable(b: Box, key: KeyUser) {
    IsJump(key) ==> |b.work| < TWO_16
  }

  function CursorJump(b: Box, right: bool): (m: Move)
    requires Good(b) && b.focus && |b.work| < TWO_16
    ensures m.done
  {
    var at := CursorAbs(b.front);
    if |b.work| == 0 then Move(b.front, true, false)
    else if right then Move(IncN(b.front, WordRight(b.work, at) - at), true, at != |b.work|)
    else Move(DecN(b.front, at - WordLeft(b.work, at)), true, at != 0)
  }

  lemma CursorJumpMoves(b: Box, right: bool)
    requires Good(b) && b.focus && |b.work| < TWO_16
    ensures CursorAbs(b.front) <= |b.work|
    ensures var at := CursorAbs(b.front);
            var to := if right then WordRight(b.work, at) else WordLeft(b.work, at);
            CursorJump(b, right)
              == Move(if right then IncN(b.front, to - at) else DecN(b.front, at - to), true, to != at)
  {
    AbsInRange(b.front);
    hide Usable, SameShape;
  }

  lemma PageKeys(i: Idx, key: KeyUser)
    requires IsCode(key, KEY_PGUP) || IsCode(key, KEY_PGDN)
    ensures ListKey(i, key, "") == if key.code == KEY_PGUP then KeyMove(DecN(i, i.jump), DecNMoves(i, i.jump))
                                   else KeyMove(IncN(i, i.jump), IncNMoves(i, i.jump))
  {
  }

  function FrontMove(b: Box, key: KeyUser): Move
    requires Good(b) && b.focus && Countable(b, key)
  {
    var i := b.front;
    if IsCode(key, KEY_HOME) then Move(Reset(i), true, Reset(i) != i)
    else if IsCode(key, KEY_END) then Move(CursorEndSet(i), true, CursorEndMoves(i))
    else if IsJump(key) then
      CursorJump(b, IsCode(key, KEY_RIGHT))
    else if IsCode(key, KEY_LEFT) || IsCode(key, KEY_UP) then Move(Dec(i), true, Dec(i) != i)
    else if IsCode(key, KEY_RIGHT) || IsCode(key, KEY_DOWN) then Move(Inc(i), true, Inc(i) != i)
    else if IsCode(key, KEY_PGUP) then Move(DecN(i, i.jump), true, DecNMoves(i, i.jump))
    else if IsCode(key, KEY_PGDN) then Move(IncN(i, i.jump), true, IncNMoves(i, i.jump))
    else Move(i, false, false)
  }

  function Navigate(b: Box, key: KeyUser): Handled
    requires Good(b) && b.focus && Countable(b, key)
  {
    var m := FrontMove(b, key);
    if m.done && !HasShift(key) then Handled(b.(front := m.front, back := m.front), true)
    else Handled(b.(front := m.front), m.changed)
  }

  // ---- keys

  function Dirty(b: Box): Handled {
    Handled(b.(dirty := true), true)
  }

  function Backspace(b: Box): Handled
    requires Good(b) && b.focus
  {
    if CursorAbs(b.front) != CursorAbs(b.back) then Dirty(SelectionReplace(b, ""))
    else if CursorAbs(b.front) == 0 then Handled(b, false)
    else
      PrevEraseLaw(b.front);
      var idx := PrevErase(b.front);
      var at := CursorAbs(idx);
      Dirty(b.(work := b.work[..at] + b.work[at + 1..], front := idx, back := idx))
  }

  function Delete(b: Box): Handled
    requires Good(b) && b.focus
  {
    var at := CursorAbs(b.front);
    if at != CursorAbs(b.back) then Dirty(SelectionReplace(b, ""))
    else if at == b.front.size - 1 then Handled(b, false)
    else
      var idx := CurrErase(b.front);
      Dirty(b.(work := b.work[..at] + b.work[at + 1..], front := idx, back := idx))
  }

  function Type(b: Box, ch: char): Handled
    requires Good(b) && b.focus
  {
    var at := CursorAbs(b.front);
    if b.cfg.numbersOnly && !IsDigit(ch) then Handled(b, false)
    else if at != CursorAbs(b.back) then Dirty(SelectionReplace(b, [ch]))
    else if |b.work| >= b.cfg.lenMax then Handled(b, false)
    else
      var idx := Insert(b.front);
      Dirty(b.(work := b.work[..at] + [ch] + b.work[at..], front := idx, back := idx))
  }

  predicate Follows(i: Idx, j: Idx) {
    Usable(j) && SameShape(i, j) && j.size == i.size && (Framed(i) ==> Framed(j))
  }

  lemma CursorJumpGood(b: Box, right: bool)
    requires Good(b) && b.focus && |b.work| < TWO_16
    ensures Follows(b.front, CursorJump(b, right).front)
  {
    AbsInRange(b.front);
    var at := CursorAbs(b.front);
    if right {
      IncNLaw(b.front, WordRight(b.work, at) - at);
    } else {
      DecNLaw(b.front, at - WordLeft(b.work, at));
    }
  }

  lemma FrontMoveGood(b: Box, key: KeyUser)
    requires Good(b) && b.focus && Countable(b, key)
    ensures Follows(b.front, FrontMove(b, key).front)
  {
    if !key.Ctrl? {
    } else if key.code == KEY_HOME {
      ResetLaw(b.front);
    } else if key.code == KEY_END {
      CursorEndLaw(b.front);
    } else if (key.code == KEY_LEFT || key.code == KEY_RIGHT) && key.ctrl {
      CursorJumpGood(b, key.code == KEY_RIGHT);
    } else if key.code == KEY_LEFT || key.code == KEY_UP {
      DecLaw(b.front);
    } else if key.code == KEY_RIGHT || key.code == KEY_DOWN {
      IncLaw(b.front);
    } else if key.code == KEY_PGUP {
      DecNLaw(b.front, b.front.jump);
    } else if key.code == KEY_PGDN {
      IncNLaw(b.front, b.front.jump);
    }
  }

  lemma NavigateGood(b: Box, key: KeyUser)
    requires Good(b) && b.focus && Countable(b, key)
    ensures Good(Navigate(b, key).box)
  {
    FrontMoveGood(b, key);
  }

  function KeyProcess(box: Box, key: KeyUser): Handled
    requires Good(box) && (box.focus ==> Countable(box, key))
  {
    var b := box.(dirty := false);
    if IsCode(key, KEY_CTRL_X) then
      var c := ClipboardSet(b);
      Dirty(if b.focus then SelectionReplace(c, "") else c.(current := ""))
    else if IsCode(key, KEY_CTRL_C) then Handled(ClipboardSet(b), true)
    else if !b.focus then Handled(b, false)
    else if IsCode(key, KEY_CTRL_A) then
      Handled(b.(back := Reset(b.back), front := CursorEndSet(b.front),
                 dirty := Reset(b.back) != b.back || CursorEndMoves(b.front)), true)
    else
      var n := Navigate(b, key);
      NavigateGood(b, key);
      if n.done then Dirty(n.box)
      else if IsBackspace(key) then Backspace(n.box)
      else if IsCode(key, KEY_DELETE) then Delete(n.box)
      else if key.Print? then Type(n.box, key.ch)
      else Handled(n.box, false)
  }

  // ---- other entries

  function CurrentSet(b: Box, str: string): Box {
    var c := b.(bytes := str, current := str);
    if b.focus then c
    else
      var idx := SizeSet(b.front, Trunc32(|str| + 1));
      c.(front := idx, back := SizeSet(b.back, idx.size))
  }

  function Paste(b: Box, str: string): Box
    requires Good(b)
  {
    if !b.focus then CurrentSet(b, str) else SelectionReplace(b, str)
  }

  function FocusSet(b: Box, foc: bool, accept: bool): Box {
    if foc then
      var idx := CursorEndSet(SizeSet(b.front, Trunc32(|b.current| + 1)));
      b.(focus := true, work := b.current, front := idx, back := idx)
    else
      var c := if accept then b.(current := b.work, bytes := b.work) else b;
      var idx := Reset(SizeSet(b.front, Trunc32(|c.current| + 1)));
      c.(focus := false, front := idx, back := idx)
  }

  function UstrWorkSet(b: Box, ustr: string): Box {
    if !b.focus then b.(work := ustr)
    else
      var idx := CursorEndSet(SizeSet(b.front, Trunc32(|ustr| + 1)));
      b.(work := ustr, front := idx, back := idx)
  }

  function SelectionSet(b: Box, start: u16, len: u16): Box {
    var max := Trunc16(if b.focus then |b.work| else |b.current|);
    var first := if start > max then max else start;
    var last := if len == 0 || Add16(start, len) > max then max else Add16(start, len);
    var idx := IncN(Reset(b.front), first);
    b.(back := idx, front := if first < last then IncN(Reset(b.front), last) else idx)
  }

  function CursorBounds(b: Box, bnd: u32): Box {
    b.(front := CursorBoundSet(b.front, bnd), back := CursorBoundSet(b.back, bnd))
  }

  function WidthSet(b: Box, width: u16): Box {
    if width < 4 then b
    else
      var w := width - (if b.cfg.frame then 2 else 0) - (if b.cfg.padding then 2 else 0);
      b.(cfg := b.cfg.(width := width), front := WinSet(b.front, w), back := WinSet(b.back, w))
  }
}
