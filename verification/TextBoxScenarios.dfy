/** Cut and paste, number fields, entering the focus, and the one way out of the flat editor. */
module TextBoxScenarios {
  import opened Decimals
  import opened Words
  import opened Keys
  import opened ListIdxState
  import opened ListIdxLaws
  import opened TextBoxState
  import opened TextBoxLaws
  import opened TextBoxRuns
  import F = FlatEditor

  // ---- cut and paste

  const CUT := Ctrl(KEY_CTRL_X, false, true)

  lemma PasteAtCursor(b: Box, ins: string)
    requires Focused(b) && Unselected(b) && |b.work| <= b.cfg.lenMax
    ensures KeepsPlace(b) && HasRoom(b)
    ensures Abs(b.front) <= |b.work|
    ensures var at := Abs(b.front); var pre := F.Fitting(|b.work|, ins, b.cfg.lenMax);
            Flatten(Paste(b, ins))
              == Flatten(b).(text := b.work[..at] + pre + b.work[at..], front := at + |pre|, back := at + |pre|)
  {
    hide SelectionReplace, Framed;
    FocusedFacts(b);
    assert Shortened(b) == b.work;
    ReplaceRefines(b, ins);
  }

  lemma CutStep(b: Box)
    requires Focused(b)
    ensures var c := ClipboardSet(b.(dirty := false));
            Focused(c) && KeyProcess(b, CUT).box == Dirty(SelectionReplace(c, "")).box
            && c.clip == b.work[CursorAbs(Low(b))..CursorAbs(High(b))]
            && Shortened(c) == Shortened(b) && Collapsed(c) == Collapsed(b)
  {
    hide SelectionReplace, SizeSet;
  }

  lemma AfterCut(b: Box)
    requires Focused(b) && HasRoom(b)
    ensures var c := KeyProcess(b, CUT).box;
            && Kept(b, c) && Unselected(c)
            && c.work == Shortened(b) && Abs(c.front) == Abs(Collapsed(b)) <= |c.work| <= b.cfg.lenMax
            && c.clip == b.work[CursorAbs(Low(b))..CursorAbs(High(b))]
  {
    hide KeyProcess, SelectionReplace, SizeSet, Framed, Usable;
    CutStep(b);
    var q := ClipboardSet(b.(dirty := false));
    assert HasRoom(q);
    ReplaceKeepsOrder(q, "");
    var w := SelectionReplace(q, "").work;
    assert w == w[..Abs(Collapsed(b))] + w[Abs(Collapsed(b))..];
  }

  /** Cutting and pasting back: within the limit both cursors come to the old high end exactly when the
      cut kept its place, and then the text is the old one; of a longer text the end of the clipboard is
      lost. A cut that leaves more than the limit breaks the box (`ReplaceNeedsRoom`). */
  lemma CutPaste(b: Box)
    requires Focused(b) && HasRoom(b)
    ensures Focused(KeyProcess(b, CUT).box)
    ensures var c := KeyProcess(b, CUT).box;
            var r := Paste(c, c.clip);
            && Unselected(r)
            && |r.work| == Min(|b.work|, b.cfg.lenMax)
            && (|b.work| <= b.cfg.lenMax && KeepsPlace(b) ==> r.work == b.work)
            && (|b.work| <= b.cfg.lenMax ==> (Abs(r.front) == Abs(High(b)) <==> KeepsPlace(b)))
  {
    hide KeyProcess, SelectionReplace, Collapsed, Framed, Usable, Shortened, KeepsPlace, F.Fitting;
    FocusedFacts(b);
    AfterCut(b);
    CollapsedPlace(b);
    var c := KeyProcess(b, CUT).box;
    PasteAtCursor(c, c.clip);
    FittingLength(|c.work|, c.clip, c.cfg.lenMax);
    if KeepsPlace(b) {
      Rejoined(b);
    }
  }

  lemma FittingLength(used: nat, ins: string, lenMax: nat)
    requires used <= lenMax
    ensures |F.Fitting(used, ins, lenMax)| == Min(used + |ins|, lenMax) - used
    ensures used + |ins| <= lenMax ==> F.Fitting(used, ins, lenMax) == ins
  {
  }

  /** What was cut, put back in its place. */
  lemma Rejoined(b: Box)
    requires Focused(b)
    ensures Abs(Low(b)) <= Abs(High(b)) <= |b.work| && Abs(Low(b)) <= |Shortened(b)|
    ensures var lo, hi := Abs(Low(b)), Abs(High(b));
            b.work == Shortened(b)[..lo] + b.work[lo..hi] + Shortened(b)[lo..]
  {
    hide Shortened, Good, Abs;
    ShortenedParts(b);
    var lo, hi := Abs(Low(b)), Abs(High(b));
    assert b.work == b.work[..lo] + b.work[lo..hi] + b.work[hi..];
  }

  // ---- number fields

  predicate KeysOnly(ops: seq<Op>) {
    forall i :: 0 <= i < |ops| ==> !ops[i].PasteText?
  }

  lemma DigitsJoined(a: string, b: string)
    requires AllDigits(a) && AllDigits(b)
    ensures AllDigits(a + b)
  {
  }

  lemma ReplaceKeepsDigits(b: Box, ins: string)
    requires Focused(b) && AllDigits(b.work) && AllDigits(ins)
    ensures AllDigits(SelectionReplace(b, ins).work)
  {
    hide Collapsed, InsertN, Framed, Usable;
    FocusedFacts(b);
    CollapsedInRange(b);
    DigitsJoined(b.work[..CursorAbs(Low(b))], b.work[CursorAbs(High(b))..]);
    assert AllDigits(Shortened(b));
  }

  lemma PressKeepsDigits(f: F.Flat, r: F.Rules, key: KeyUser)
    requires F.Within(f) && r.numbersOnly && AllDigits(f.text) && !F.Replaces(f, r, key)
    ensures AllDigits(F.Press(f, r, key).flat.text)
  {
    hide F.Target;
    if f.front > 0 {
      DigitsJoined(f.text[..f.front - 1], f.text[f.front..]);
    }
    if f.front < |f.text| {
      DigitsJoined(f.text[..f.front], f.text[f.front + 1..]);
    }
    if key.Print? && IsDigit(key.ch) {
      DigitsJoined(f.text[..f.front], [key.ch]);
      DigitsJoined(f.text[..f.front] + [key.ch], f.text[f.front..]);
    }
  }

  lemma ReplacingKeepsDigits(b: Box, key: KeyUser)
    requires Focused(b) && Countable(b, key) && b.cfg.numbersOnly && AllDigits(b.work)
    requires F.Replaces(Flatten(b), RulesOf(b), key)
    ensures AllDigits(KeyProcess(b, key).box.work)
  {
    hide KeyProcess, SelectionReplace, Usable, KeepsPlace;
    ReplacingStep(b, key);
    var q := b.(dirty := false);
    ReplaceKeepsDigits(if IsCode(key, KEY_CTRL_X) then ClipboardSet(q) else q,
                       if key.Print? then [key.ch] else "");
  }

  lemma KeyKeepsDigits(b: Box, key: KeyUser)
    requires Focused(b) && Countable(b, key) && b.cfg.numbersOnly && AllDigits(b.work)
    ensures AllDigits(KeyProcess(b, key).box.work)
  {
    hide KeyProcess, F.Press, F.Replaces, Good;
    FocusedFacts(b);
    if F.Replaces(Flatten(b), RulesOf(b), key) {
      ReplacingKeepsDigits(b, key);
    } else {
      KeyRefines(b, key);
      PressKeepsDigits(Flatten(b), RulesOf(b), key);
    }
  }

  /** Without pastes a number field holds digits only. */
  lemma {:induction false} NumbersStayNumbers(b: Box, ops: seq<Op>)
    requires Focused(b) && FitsRun(b, ops) && b.cfg.numbersOnly && AllDigits(b.work) && KeysOnly(ops)
    ensures AllDigits(Run(b, ops).work)
    decreases |ops|
  {
    hide KeyProcess, Framed, Usable, AllDigits, FitsOp;
    if ops != [] {
      StepKeeps(b, ops[0]);
      var c := Step(b, ops[0]);
      if ops[0].PressKey? {
        KeyKeepsDigits(b, ops[0].key);
      } else {
        assert c.work == b.work;
      }
      assert KeysOnly(ops[1..]);
      NumbersStayNumbers(c, ops[1..]);
    }
  }

  // ---- entering the focus

  /** Entering the focus starts every run: the cursor stands behind the accepted text, nothing is
      selected, and the scroll margins hold whatever they were before. */
  lemma FocusIn(b: Box, accept: bool)
    requires Usable(b.front) && BoundsOrdered(b.front) && |b.current| < 0x7FFF_FFFF
    ensures var c := FocusSet(b, true, accept);
            && FramedBox(c) && c.cfg == b.cfg && c.current == b.current && c.bytes == b.bytes
            && Flatten(c) == F.Flat(b.current, |b.current|, |b.current|, b.clip, b.dirty)
  {
    hide SizeSet, CursorEndSet, Framed, Usable;
    ResizeLaw(b.front, |b.current| + 1);
    CursorEndLaw(SizeSet(b.front, |b.current| + 1));
  }

  /** Leaving with acceptance publishes the edited text; leaving without drops it. */
  lemma FocusOut(b: Box, accept: bool)
    requires Focused(b) && |b.current| < 0x7FFF_FFFF
    ensures var c := FocusSet(b, false, accept);
            && Good(c) && !c.focus
            && c.current == (if accept then b.work else b.current)
            && c.bytes == (if accept then b.work else b.bytes)
            && c.work == b.work && c.clip == b.clip && c.dirty == b.dirty && c.cfg == b.cfg
            && c.front.size == |c.current| + 1 && Abs(c.front) == 0 && c.back == c.front
  {
    hide SizeSet, Reset, Framed, Usable, Trunc32;
    FocusedUsable(b);
    ShownFromStart(b.front, if accept then |b.work| else |b.current|);
  }

  /** A cursor put to the front of a text of n characters. */
  lemma ShownFromStart(i: Idx, n: nat)
    requires Usable(i) && n < 0x7FFF_FFFF
    ensures var j := Reset(SizeSet(i, Trunc32(n + 1)));
            Usable(j) && SameShape(i, j) && j.size == n + 1 && Abs(j) == 0
  {
    hide SizeSet, Reset, Framed;
    ResizeLaw(i, n + 1);
    ResetLaw(SizeSet(i, n + 1));
  }

  lemma FocusedUsable(b: Box)
    requires Focused(b)
    ensures Usable(b.front) && b.front.size == |b.work| + 1 < 0x8000_0000
  {
  }

  /** A resize keeps the box usable as long as a cell is left for the text. */
  lemma WidthKeeps(b: Box, width: u16)
    requires Good(b)
    requires width >= 4 ==> width > (if b.cfg.frame then 2 else 0) + (if b.cfg.padding then 2 else 0)
    ensures var c := WidthSet(b, width);
            && Good(c) && c == b.(cfg := b.cfg.(width := c.cfg.width), front := c.front, back := c.back)
            && (if width < 4 then c == b else c.cfg.width == width)
            && (width >= 4 ==> c.front == WinSet(b.front, c.front.win) && c.back == WinSet(b.back, c.front.win))
            && (width >= 4 ==>
                  && BoundsOrdered(c.front)
                  && c.front.win == width - (if b.cfg.frame then 2 else 0) - (if b.cfg.padding then 2 else 0))
            && (c.front.win >= 3 && width >= 4 ==> 1 <= c.front.lbound && c.front.ubound + 2 <= c.front.win)
            && (width >= 4 && b.focus ==>
                  (FramedBox(c) <==> KeepsMargins(b.front, c.front.win) && KeepsMargins(b.back, c.front.win)))
  {
    hide WinSet, Framed, KeepsMargins;
    if width >= 4 {
      var w := width - (if b.cfg.frame then 2 else 0) - (if b.cfg.padding then 2 else 0);
      WinSetLaw(b.front, w);
      WinSetLaw(b.back, w);
      WinBounds(b.front, b.back, w);
      WinSetMargins(b.front, w);
      WinSetMargins(b.back, w);
    }
  }

  lemma WinBounds(i: Idx, j: Idx, w: u32)
    ensures WinSet(i, w).lbound == WinSet(j, w).lbound && WinSet(i, w).ubound == WinSet(j, w).ubound
  {
  }

  // ---- the one way out

  const HOME := Ctrl(KEY_HOME, false, false)
  const LEFT := Ctrl(KEY_LEFT, false, false)
  const SHIFT_LEFT := Ctrl(KEY_LEFT, true, false)
  const SHIFT_END := Ctrl(KEY_END, true, false)
  const DELETE := Ctrl(KEY_DELETE, false, false)

  function Times(op: Op, n: nat): (ops: seq<Op>)
    ensures |ops| == n
  {
    seq(n, _ => op)
  }

  lemma {:induction false} DecNFront(i: Idx, n: nat)
    ensures DecN(i, n + 1) == DecN(Dec(i), n)
  {
    if n != 0 {
      DecNFront(i, n - 1);
    }
  }

  /** A key that moves the cursor: with shift the other end of the selection stays. */
  lemma MovingKeyStep(b: Box, key: KeyUser)
    requires Focused(b) && (key == LEFT || key == HOME || key == SHIFT_LEFT || key == SHIFT_END)
    ensures var i := if key == HOME then Reset(b.front)
                     else if key == SHIFT_END then CursorEndSet(b.front)
                     else Dec(b.front);
            (key.shift ==> Abs(i) != Abs(b.front)) ==>
              Step(b, PressKey(key)) == b.(front := i, back := if key.shift then b.back else i, dirty := true)
  {
    hide SelectionReplace, SizeSet, Framed, Backspace, Delete;
    DecLaw(b.front);
    ResetLaw(b.front);
    CursorEndLaw(b.front);
  }

  lemma {:induction false} ShiftLeftRun(b: Box, n: nat)
    requires Focused(b) && n <= Abs(b.front)
    ensures FitsRun(b, Times(PressKey(SHIFT_LEFT), n))
    ensures Run(b, Times(PressKey(SHIFT_LEFT), n))
         == if n == 0 then b else b.(front := DecN(b.front, n), dirty := true)
    decreases n
  {
    hide KeyProcess, Framed, SizeSet;
    if n != 0 {
      var ops := Times(PressKey(SHIFT_LEFT), n);
      assert ops[1..] == Times(PressKey(SHIFT_LEFT), n - 1);
      MovingKeyStep(b, SHIFT_LEFT);
      DecLaw(b.front);
      StepKeeps(b, ops[0]);
      ShiftLeftRun(Step(b, ops[0]), n - 1);
      DecNFront(b.front, n - 1);
    }
  }

  /** One key and then a run. */
  lemma KeyThen(b: Box, key: KeyUser, ops: seq<Op>)
    requires Focused(b) && Countable(b, key) && FitsKey(b, key)
    ensures Focused(Step(b, PressKey(key)))
    ensures FitsRun(b, [PressKey(key)] + ops) <==> FitsRun(Step(b, PressKey(key)), ops)
    ensures FitsRun(b, [PressKey(key)] + ops) ==>
              Run(b, [PressKey(key)] + ops) == Run(Step(b, PressKey(key)), ops)
  {
    hide KeyProcess, Framed, Good, FitsKey, Countable;
    StepKeeps(b, PressKey(key));
    assert ([PressKey(key)] + ops)[1..] == ops;
  }

  /** A box of eight cells and ten characters that is about to get the focus. */
  predicate NarrowBox(b: Box) {
    && !b.focus && Good(b) && b.front.win == 8
    && |b.current| == 10 <= b.cfg.lenMax
  }

  function Ten(i: Idx, cursor: u32, offset: u32): Idx {
    i.(size := 11, cursor := cursor, offset := offset)
  }

  lemma NarrowFocus(b: Box, accept: bool)
    requires NarrowBox(b) && BoundsOrdered(b.front)
    ensures var c := FocusSet(b, true, accept); var i := Ten(b.front, 7, 3);
            c == b.(focus := true, work := b.current, front := i, back := i) && FramedBox(c)
  {
    FocusIn(b, accept);
    hide Framed;
    var s := SizeSet(b.front, 11);
    ResizeLaw(b.front, 11);
    assert CursorEndSet(s) == s.(cursor := 7, offset := 3);
  }

  /** Left-selected from the ninth character down to the fourth, with the bounds of `winSet`: Delete
      moves the cursor to 5, where the flat editor stays at 4. */
  lemma DeleteCanShift(b: Box, accept: bool)
    requires NarrowBox(b) && b.front.lbound == 3 && b.front.ubound == 4
    ensures FramedBox(FocusSet(b, true, accept))
    ensures FitsRun(FocusSet(b, true, accept), [PressKey(LEFT)] + Times(PressKey(SHIFT_LEFT), 5))
    ensures var sel := Run(FocusSet(b, true, accept), [PressKey(LEFT)] + Times(PressKey(SHIFT_LEFT), 5));
            && Focused(sel) && !KeepsPlace(sel)
            && Abs(KeyProcess(sel, DELETE).box.front) == 5
            && F.Within(Flatten(sel))
            && F.Press(Flatten(sel), RulesOf(sel), DELETE).flat.front == 4
  {
    hide KeyProcess, SelectionReplace, F.Press, Run, FocusSet;
    NarrowFocus(b, accept);
    var start := FocusSet(b, true, accept);
    KeyThen(start, LEFT, Times(PressKey(SHIFT_LEFT), 5));
    MovingKeyStep(start, LEFT);
    var c := Step(start, PressKey(LEFT));
    assert c.front == c.back == Ten(b.front, 6, 3);
    ShiftLeftRun(c, 5);
    FiveLeft(b.front);
    DeleteShifts(c.(front := Ten(b.front, 3, 1), dirty := true));
  }

  lemma FiveLeft(i: Idx)
    requires i.win == 8 && i.lbound == 3
    ensures DecN(Ten(i, 6, 3), 5) == Ten(i, 3, 1)
  {
    var s := Ten(i, 6, 3);
    assert DecN(s, 1) == Ten(i, 5, 3);
    assert DecN(s, 2) == Ten(i, 4, 3);
    assert DecN(s, 3) == Ten(i, 3, 3);
    assert DecN(s, 4) == Ten(i, 3, 2);
  }

  lemma DeleteShifts(sel: Box)
    requires Focused(sel) && |sel.work| == 10 <= sel.cfg.lenMax && sel.front.win == 8
    requires sel.front == Ten(sel.front, 3, 1) && sel.back == Ten(sel.front, 6, 3)
    ensures !KeepsPlace(sel)
    ensures Abs(KeyProcess(sel, DELETE).box.front) == 5
    ensures F.Within(Flatten(sel))
    ensures F.Press(Flatten(sel), RulesOf(sel), DELETE).flat.front == 4
  {
    hide KeyProcess, SelectionReplace, F.Press, Framed;
    assert Shortened(sel) == sel.work[..4] + sel.work[9..];
    CollapsedPlace(sel);
    ReplacingStep(sel, DELETE);
    var q := sel.(dirty := false);
    CollapsedPlace(q);
    ReplaceKeepsOrder(q, "");
    FocusedFacts(sel);
    PressReplaces(Flatten(sel), RulesOf(sel), DELETE);
  }
}
