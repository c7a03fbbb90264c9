/** What a terminal shows after whole runs, and the two ways to a wrong picture: bounds that let the
    cursor go to the edge of the window, and a resize in focus. */
module TextBoxHighlights {
  import opened ListIdxState
  import opened ListIdxLaws
  import opened TextBoxState
  import opened TextBoxLaws
  import opened TextBoxRuns
  import opened TextBoxScenarios
  import opened TextBoxView

  /** With a cursor bound of 0, the first two of ten characters are selected from the right end of
      the text on: the high end comes to lie under the left marker, and the characters behind the
      selection look selected. */
  lemma HighlightRunsOn(b: Box, accept: bool, cells: seq<Cell>)
    requires NarrowBox(b)
    ensures FramedBox(FocusSet(CursorBounds(b, 0), true, accept))
    ensures FitsRun(FocusSet(CursorBounds(b, 0), true, accept),
                    [PressKey(HOME)] + ([PressKey(SHIFT_END)] + Times(PressKey(SHIFT_LEFT), 8)))
    ensures var keys := [PressKey(HOME)] + ([PressKey(SHIFT_END)] + Times(PressKey(SHIFT_LEFT), 8));
            var r := Run(FocusSet(CursorBounds(b, 0), true, accept), keys);
            && FramedBox(r) && HasSelection(r) && Drags(r)
            && CursorAbs(Low(r)) == 0 && CursorAbs(High(r)) == r.front.offset == 2
            && (Shows(r, cells) ==> |cells| == 8 && forall i :: 1 <= i < 7 ==> cells[i].pen.selected)
  {
    hide KeyProcess, Run, FocusSet, CursorBoundSet, Framed;
    var wide := CursorBounds(b, 0);
    CursorBoundLaw(b.front, 0);
    CursorBoundLaw(b.back, 0);
    NarrowFocus(wide, accept);
    var start := FocusSet(wide, true, accept);
    var i := wide.front;

    var lefts := Times(PressKey(SHIFT_LEFT), 8);
    LimitFits(start, [PressKey(HOME)] + ([PressKey(SHIFT_END)] + lefts));
    RunKeeps(start, [PressKey(HOME)] + ([PressKey(SHIFT_END)] + lefts));
    KeyThen(start, HOME, [PressKey(SHIFT_END)] + lefts);
    MovingKeyStep(start, HOME);
    var c := Step(start, PressKey(HOME));
    assert c.front == c.back == Ten(i, 0, 0);
    KeyThen(c, SHIFT_END, lefts);
    MovingKeyStep(c, SHIFT_END);
    var d := Step(c, PressKey(SHIFT_END));
    assert d.front == Ten(i, 7, 3) && d.back == Ten(i, 0, 0);
    ShiftLeftRun(d, 8);
    EightLeft(i);
  }

  lemma EightLeft(i: Idx)
    requires i.win == 8 && i.lbound == 0
    ensures DecN(Ten(i, 7, 3), 8) == Ten(i, 0, 2)
  {
    var s := Ten(i, 7, 3);
    assert DecN(s, 1) == Ten(i, 6, 3);
    assert DecN(s, 2) == Ten(i, 5, 3);
    assert DecN(s, 3) == Ten(i, 4, 3);
    assert DecN(s, 4) == Ten(i, 3, 3);
    assert DecN(s, 5) == Ten(i, 2, 3);
    assert DecN(s, 6) == Ten(i, 1, 3);
    assert DecN(s, 7) == Ten(i, 0, 3);
  }

  /** What a terminal shows after any run since the box got the focus: with the bounds of `winSet` every
      cell is the marker or the character it must be, exactly the selected characters are highlighted,
      and the cursor alone is underlined and never under a marker. */
  lemma RunShows(b: Box, accept: bool, ops: seq<Op>, cells: seq<Cell>)
    requires Usable(b.front) && |b.current| < 0x7FFF_FFFF && b.front.win >= 3
    requires b.front.lbound == (b.front.win - 1) / 2 && b.front.ubound == b.front.win / 2
    requires Focused(FocusSet(b, true, accept)) && FitsRun(FocusSet(b, true, accept), ops)
    ensures var r := Run(FocusSet(b, true, accept), ops);
            Shows(r, cells) ==>
              && FramedBox(r) && |cells| == b.front.win && r.front.cursor < |cells|
              && !LeftMarker(r, r.front.cursor) && !RightMarker(r, r.front.cursor)
              && forall i :: 0 <= i < |cells| ==>
                   var k := r.front.offset + i;
                   && cells[i].ch == (if i == 0 && r.front.offset > 0 then '\U{AB}'
                                      else if i + 1 == b.front.win && k + 1 < r.front.size then '\U{BB}'
                                      else if k >= |r.work| then ' '
                                      else if b.cfg.password then '*' else r.work[k])
                   && (LeftMarker(r, i) || RightMarker(r, i)
                       || (cells[i].pen.selected <==> CursorAbs(Low(r)) <= k < CursorAbs(High(r))))
                   && (cells[i].pen.underlined <==> b.cfg.cursorShow && i == r.front.cursor)
  {
    hide FocusSet, Run, FitsRun, Framed;
    FocusIn(b, accept);
    var c := FocusSet(b, true, accept);
    assert SameShape(b.front, c.front) by {
      FocusShape(b, accept);
    }
    RunKeeps(c, ops);
    var r := Run(c, ops);
    if Shows(r, cells) {
      FramedShow(r, cells);
      ShownCells(r, cells);
    }
  }

  lemma FocusShape(b: Box, accept: bool)
    requires Usable(b.front) && |b.current| < 0x7FFF_FFFF
    ensures SameShape(b.front, FocusSet(b, true, accept).front)
  {
    hide SizeSet, CursorEndSet, Framed, Usable;
    ResizeLaw(b.front, |b.current| + 1);
    CursorEndLaw(SizeSet(b.front, |b.current| + 1));
  }

  lemma ShownCells(r: Box, cells: seq<Cell>)
    requires Focused(r) && Shows(r, cells)
    ensures forall i :: 0 <= i < |cells| ==>
              var k := r.front.offset + i;
              cells[i].ch == if i == 0 && r.front.offset > 0 then '\U{AB}'
                             else if i + 1 == r.front.win && k + 1 < r.front.size then '\U{BB}'
                             else if k >= |r.work| then ' '
                             else if r.cfg.password then '*' else r.work[k]
    ensures !r.cfg.cursorShow ==> forall i :: 0 <= i < |cells| ==> !cells[i].pen.underlined
  {
    AbsInRange(r.front);
  }

  /** Seven characters in eight cells, resized to four in focus: the cursor comes to lie under the
      right marker. */
  lemma ResizeHidesCursor(b: Box, accept: bool)
    requires !b.focus && Good(b) && b.front.win == 8 && BoundsOrdered(b.front) && |b.current| == 7
    requires b.cfg.frame && b.cfg.padding
    ensures Focused(FocusSet(b, true, accept))
    ensures var c := WidthSet(FocusSet(b, true, accept), 8);
            Focused(c) && c.front.win == 4 && RightMarker(c, c.front.cursor) && !FramedBox(c)
  {
    hide Framed;
    FocusIn(b, accept);
    WidthKeeps(FocusSet(b, true, accept), 8);
  }
}
