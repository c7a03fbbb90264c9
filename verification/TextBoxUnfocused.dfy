/** The text box without focus, and the entries that replace its texts. */
module TextBoxUnfocused {
  import opened Words
  import opened Keys
  import opened ListIdxState
  import opened ListIdxLaws
  import opened TextBoxState
  import opened TextBoxLaws
  import opened TextBoxRuns
  import opened TextBoxScenarios
  import F = FlatEditor

  /** Both cursors move over the accepted text. */
  predicate Rested(b: Box) {
    && !b.focus && Good(b)
    && b.front.size == b.back.size == |b.current| + 1
  }

  /** Without focus the sizes agree with the text after a step, and what is handed out with the text,
      except exactly: Ctrl-X empties the text, leaves the cursors of a list of more than one entry as
      they are, and goes on handing out what was there. */
  lemma UnfocusedStep(b: Box, op: Op)
    requires Good(b) && !b.focus && (op.PasteText? ==> |op.str| < 0x7FFF_FFFF)
    ensures var c := Step(b, op);
            && Good(c) && !c.focus
            && (c.bytes == c.current <==>
                  match op
                  case PasteText(_) => true
                  case SelectRange(_, _) => b.bytes == b.current
                  case PressKey(key) => if IsCode(key, KEY_CTRL_X) then b.bytes == "" else b.bytes == b.current)
            && (Rested(c) <==>
                  match op
                  case PasteText(_) => true
                  case SelectRange(_, _) => b.front.size == |b.current| + 1
                  case PressKey(key) =>
                    if IsCode(key, KEY_CTRL_X) then b.front.size == b.back.size == 1 else Rested(b))
  {
    hide Framed, SizeSet, SelectionSet, SelectionReplace;
    match op
    case PasteText(str) =>
      ResizeLaw(b.front, |str| + 1);
      ResizeLaw(b.back, |str| + 1);
    case SelectRange(start, len) =>
      UnfocusedSelect(b, start, len);
    case PressKey(_) =>
  }

  lemma UnfocusedSelect(b: Box, start: u16, len: u16)
    requires Good(b) && !b.focus
    ensures var c := SelectionSet(b, start, len); var max := Trunc16(|b.current|); var end := Add16(start, len);
            && Good(c) && c == b.(front := c.front, back := c.back)
            && c.front.size == c.back.size == b.front.size
            && (Rested(b) ==>
                  && Abs(c.back) == Min(start, max)
                  && Abs(c.front) == Max(Min(start, max), if len == 0 then max else Min(end, max)))
  {
    hide Framed, Usable, IncN, Reset;
    var max := Trunc16(|b.current|);
    ResetLaw(b.front);
    IncNLaw(Reset(b.front), if start > max then max else start);
    IncNLaw(Reset(b.front), if len == 0 || Add16(start, len) > max then max else Add16(start, len));
  }

  /** Without focus only Ctrl-X and Ctrl-C are taken: both copy the text that is handed out. */
  lemma UnfocusedKey(b: Box, key: KeyUser)
    requires Good(b) && !b.focus
    ensures KeyProcess(b, key)
         == if IsCode(key, KEY_CTRL_X) then Handled(b.(current := "", clip := b.bytes, dirty := true), true)
            else if IsCode(key, KEY_CTRL_C) then Handled(b.(clip := b.bytes, dirty := false), true)
            else Handled(b.(dirty := false), false)
  {
  }

  /** A cursor bound is set for both cursors. */
  lemma CursorBoundsLaw(b: Box, bnd: u32)
    requires Good(b)
    ensures var c := CursorBounds(b, bnd); var cell := Min(bnd, b.front.win - 1);
            && Good(c) && c == b.(front := c.front, back := c.back)
            && Abs(c.front) == Abs(b.front) && Abs(c.back) == Abs(b.back)
            && c.front.lbound == c.back.lbound == cell && c.front.ubound == c.back.ubound
            && (bnd != NO_BOUND ==> c.front.lbound + c.front.ubound == b.front.win - 1)
  {
    hide CursorBoundSet;
    CursorBoundLaw(b.front, bnd);
    CursorBoundLaw(b.back, bnd);
    SameBounds(b.front, b.back, bnd);
  }

  lemma SameBounds(i: Idx, j: Idx, bnd: u32)
    requires i.win == j.win && i.ubound == j.ubound
    ensures CursorBoundSet(i, bnd).ubound == CursorBoundSet(j, bnd).ubound
  {
  }

  /** What Ctrl-X does without focus. */
  lemma CutUnfocused(b: Box)
    requires Rested(b)
    ensures var c := KeyProcess(b, CUT).box;
            && c.current == "" && c.clip == c.bytes == b.bytes
            && c.front == b.front && c.back == b.back
            && (c.front.size == |c.current| + 1 <==> b.current == "")
  {
  }

  /** A new accepted text: without focus both cursors are fitted to it, in focus the editing goes on
      untouched; the next focus starts from it. */
  lemma CurrentSetLaw(b: Box, str: string, accept: bool)
    requires Good(b) && |str| < 0x7FFF_FFFF
    ensures var c := CurrentSet(b, str);
            && Good(c) && c == b.(current := str, bytes := str, front := c.front, back := c.back)
            && (!b.focus ==>
                  && Rested(c)
                  && Abs(c.front) == Resized(b.front, |str| + 1) && Abs(c.back) == Resized(b.back, |str| + 1))
            && (b.focus ==> Focused(c) && Flatten(c) == Flatten(b))
            && (BoundsOrdered(b.front) ==>
                  FramedBox(FocusSet(c, true, accept))
                  && Flatten(FocusSet(c, true, accept)) == F.Flat(str, |str|, |str|, b.clip, b.dirty))
  {
    hide Framed, SizeSet, FocusSet;
    ResizeLaw(b.front, |str| + 1);
    ResizeLaw(b.back, |str| + 1);
    if BoundsOrdered(b.front) {
      FocusIn(CurrentSet(b, str), accept);
    }
  }

  /** A new edited text: in focus the cursor stands behind it, nothing is selected and the margins
      hold; without focus it is lost when the focus comes, or accepted without it. */
  lemma WorkSetLaw(b: Box, ustr: string, accept: bool)
    requires Good(b) && |ustr| < 0x7FFF_FFFF
    ensures var c := UstrWorkSet(b, ustr);
            && c == b.(work := ustr, front := c.front, back := c.back)
            && (b.focus && BoundsOrdered(b.front) ==>
                  && FramedBox(c) && c.cfg == b.cfg
                  && Flatten(c) == F.Flat(ustr, |ustr|, |ustr|, b.clip, b.dirty))
            && (!b.focus ==>
                  && FocusSet(c, true, accept) == FocusSet(b, true, accept)
                  && FocusSet(c, false, true).current == ustr)
  {
    hide SizeSet, CursorEndSet, Framed, Usable;
    ResizeLaw(b.front, |ustr| + 1);
    CursorEndLaw(SizeSet(b.front, |ustr| + 1));
  }

  /** A box with frame and padding becomes the narrow one by a width of 12 and a text. */
  lemma NarrowReached(b: Box, ten: string)
    requires Good(b) && !b.focus && b.cfg.frame && b.cfg.padding && |ten| == 10 <= b.cfg.lenMax
    ensures var n := CurrentSet(WidthSet(b, 12), ten);
            NarrowBox(n) && n.front.lbound == 3 && n.front.ubound == 4
  {
    hide SizeSet, Framed;
    WidthKeeps(b, 12);
    CurrentSetLaw(WidthSet(b, 12), ten, true);
    ResizeLaw(WidthSet(b, 12).front, 11);
  }

  /** A text beyond the limit gets into the focus as it is; from there every paste makes sizes and text
      disagree. With the limit of the constructor, 65 characters are enough. */
  lemma OverlongPaste(b: Box, str: string, accept: bool, ins: string)
    requires Good(b) && !b.focus && BoundsOrdered(b.front)
    requires b.cfg.lenMax < |str| < 0x7FFF_FFFF && |ins| < 0x7FFF_FFFF
    ensures var c := FocusSet(CurrentSet(b, str), true, accept);
            && Focused(c) && c.work == str && !HasRoom(c)
            && var r := Paste(c, ins);
               && !Good(r) && |r.work| == |str| + |ins|
               && r.front.size == r.back.size == b.cfg.lenMax + 1
  {
    hide CurrentSet, FocusSet, SelectionReplace, Framed, Usable;
    CurrentSetLaw(b, str, accept);
    var c := FocusSet(CurrentSet(b, str), true, accept);
    assert c.cfg == b.cfg by {
      SameConfig(b, str, accept);
    }
    FocusedFacts(c);
    ReplaceOverruns(c, ins);
    ReplaceNeedsRoom(c, ins);
  }

  lemma SameConfig(b: Box, str: string, accept: bool)
    ensures FocusSet(CurrentSet(b, str), true, accept).cfg == b.cfg
    ensures FocusSet(CurrentSet(b, str), true, accept).focus
  {
  }
}
