/** What `TextBox.print` puts on a terminal: tokens, the cells they paint, and the
    cells a reader expects. */
module TextBoxView {
  import opened ListIdxState
  import opened ListIdxLaws
  import opened TextBoxState
  import opened TextBoxLaws

  /** Everything that is sent: characters and changes of the pen. */
  datatype Token = Glyph(ch: char) | ResetPen | FramePen | ContentPen | SelectionPen | UnderlinePen

  datatype Pen = Pen(selected: bool, underlined: bool)

  datatype Cell = Cell(ch: char, pen: Pen)

  const PLAIN := Pen(false, false)
  const MORE_LEFT: char := '\U{AB}'
  const MORE_RIGHT: char := '\U{BB}'

  // ---- a terminal

  function PenAfter(tokens: seq<Token>): Pen {
    if tokens == [] then PLAIN
    else
      var pen := PenAfter(tokens[..|tokens| - 1]);
      match tokens[|tokens| - 1]
      case ResetPen => PLAIN
      case SelectionPen => pen.(selected := true)
      case UnderlinePen => pen.(underlined := true)
      case _ => pen
  }

  function Painted(tokens: seq<Token>): seq<Cell> {
    if tokens == [] then []
    else
      var before := tokens[..|tokens| - 1];
      match tokens[|tokens| - 1]
      case Glyph(ch) => Painted(before) + [Cell(ch, PenAfter(before))]
      case _ => Painted(before)
  }

  lemma Sent(tokens: seq<Token>, t: Token)
    ensures PenAfter(tokens + [t]) == (match t
                                       case ResetPen => PLAIN
                                       case SelectionPen => PenAfter(tokens).(selected := true)
                                       case UnderlinePen => PenAfter(tokens).(underlined := true)
                                       case _ => PenAfter(tokens))
    ensures Painted(tokens + [t]) == Painted(tokens) + (if t.Glyph? then [Cell(t.ch, PenAfter(tokens))] else [])
  {
    assert (tokens + [t])[..|tokens|] == tokens;
  }

  // ---- what is expected

  function Text(b: Box): string {
    if b.focus then b.work else b.current
  }

  predicate HasSelection(b: Box) {
    b.focus && CursorAbs(Low(b)) != CursorAbs(High(b))
  }

  /** Cells that show a marker in the place of a character. */
  predicate LeftMarker(b: Box, i: nat) {
    i == 0 && b.front.offset > 0
  }

  predicate RightMarker(b: Box, i: nat) {
    i + 1 == b.front.win && !EndReached(b.front)
  }

  function CharAt(b: Box, k: nat): char {
    if k >= |Text(b)| then ' ' else if b.cfg.password then '*' else Text(b)[k]
  }

  function ShownChar(b: Box, i: nat): char {
    if LeftMarker(b, i) then MORE_LEFT
    else if RightMarker(b, i) then MORE_RIGHT
    else CharAt(b, b.front.offset + i)
  }

  predicate CursorAt(b: Box, k: nat) {
    b.focus && b.cfg.cursorShow && k == CursorAbs(b.front)
  }

  /** The high end lies under the left marker, where the pen is not reset. */
  predicate Drags(b: Box) {
    b.front.offset > 0 && CursorAbs(High(b)) == b.front.offset
  }

  predicate Highlighted(b: Box, k: nat) {
    HasSelection(b) && CursorAbs(Low(b)) <= k && (k < CursorAbs(High(b)) || Drags(b))
  }

  /** What the cell i must be: a marker with the pen in front of it, or a character with its own. */
  predicate Expected(b: Box, i: nat, cell: Cell) {
    && cell.ch == ShownChar(b, i)
    && if LeftMarker(b, i) || RightMarker(b, i) then cell.pen == Carried(b, i)
       else cell.pen == Pen(Highlighted(b, b.front.offset + i), CursorAt(b, b.front.offset + i))
  }

  /** The cells between the frames. */
  predicate Shows(b: Box, cells: seq<Cell>) {
    && |cells| == b.front.win
    && forall i :: 0 <= i < |cells| ==> Expected(b, i, cells[i])
  }

  /** The pen in front of cell i. */
  function Carried(b: Box, i: nat): (pen: Pen)
    ensures !pen.underlined
  {
    Pen(if i == 0 then HasSelection(b) && b.front.offset >= CursorAbs(Low(b))
        else Highlighted(b, b.front.offset + i - 1), false)
  }

  lemma CarriedStart(b: Box)
    ensures Carried(b, 0) == Pen(HasSelection(b) && b.front.offset >= CursorAbs(Low(b)), false)
  {
  }

  /** Markers leave the pen alone; so do the ends of the selection they cover. */
  lemma MarkerPens(b: Box, i: nat)
    requires Good(b) && i + 1 < b.front.win && LeftMarker(b, i)
    ensures Carried(b, i + 1) == Carried(b, i)
  {
    AbsInRange(b.front);
  }

  /** A character switches the pen at the two ends of the selection, and the cursor puts it back. */
  lemma CharPens(b: Box, i: nat)
    requires Good(b) && i < b.front.win && !LeftMarker(b, i)
    ensures var k, lo, hi := b.front.offset + i, CursorAbs(Low(b)), CursorAbs(High(b));
            var begun := if HasSelection(b) && k == lo then Pen(true, false) else Carried(b, i);
            var closed := if HasSelection(b) && k == hi then PLAIN else begun;
            && closed == Pen(Highlighted(b, k), false)
            && (CursorAt(b, k) ==> Highlighted(b, k) == (HasSelection(b) && k < hi))
            && Carried(b, i + 1) == closed
  {
    AbsInRange(b.front);
  }

  function Plain(ch: char): Cell {
    Cell(ch, PLAIN)
  }

  function Lead(b: Box): seq<Cell> {
    (if b.cfg.frame then [Plain(if b.focus then '>' else '|')] else [])
    + (if b.cfg.padding then [Plain(' ')] else [])
  }

  function Trail(b: Box): seq<Cell> {
    (if b.cfg.padding then [Plain(' ')] else [])
    + (if b.cfg.frame then [Plain(if b.focus then '<' else '|')] else [])
  }

  /** Frame and padding, and how the focus shows in them. */
  lemma Frames(b: Box)
    ensures |Lead(b)| == |Trail(b)| == (if b.cfg.frame then 1 else 0) + (if b.cfg.padding then 1 else 0)
    ensures b.cfg.frame ==> Lead(b)[0] == Plain(if b.focus then '>' else '|')
    ensures b.cfg.frame ==> Trail(b)[|Trail(b)| - 1] == Plain(if b.focus then '<' else '|')
    ensures b.cfg.padding ==> Lead(b)[|Lead(b)| - 1] == Trail(b)[0] == Cell(' ', Pen(false, false))
  {
  }

  /** Without focus the accepted text is shown, with blanks behind it and without cursor or selection. */
  lemma UnfocusedShow(b: Box, cells: seq<Cell>)
    requires Good(b) && !b.focus && Shows(b, cells)
    ensures |cells| == b.front.win
    ensures forall i :: 0 <= i < |cells| ==>
              var k := b.front.offset + i;
              var left, right := i == 0 && b.front.offset > 0, i + 1 == b.front.win && k + 1 < b.front.size;
              && cells[i].ch == (if left then '\U{AB}' else if right then '\U{BB}'
                                 else if k >= |b.current| then ' '
                                 else if b.cfg.password then '*' else b.current[k])
              && cells[i].pen == Pen(false, false)
  {
    AbsInRange(b.front);
  }

  // ---- the margins make it right

  /** With ordered bounds that leave the edge cells free, a character is highlighted exactly
      when it is selected, and the cursor is on a character, not on a marker. */
  lemma FramedShow(b: Box, cells: seq<Cell>)
    requires FramedBox(b) && Shows(b, cells)
    requires 1 <= b.front.lbound && b.front.ubound + 2 <= b.front.win
    ensures !Drags(b)
    ensures b.front.cursor < |cells|
    ensures !LeftMarker(b, b.front.cursor) && !RightMarker(b, b.front.cursor)
    ensures b.cfg.cursorShow ==>
              forall i :: 0 <= i < |cells| ==> (cells[i].pen.underlined <==> i == b.front.cursor)
    ensures forall i :: 0 <= i < |cells| && !LeftMarker(b, i) && !RightMarker(b, i) ==>
              (cells[i].pen.selected <==> CursorAbs(Low(b)) <= b.front.offset + i < CursorAbs(High(b)))
  {
    CursorVisible(b.front);
    AbsInRange(b.front);
    AbsInRange(b.back);
  }

  /** In any usable box, a wrongly highlighted character needs the high end under the left marker:
      it is exactly then that the characters behind the selection look selected, too. */
  lemma HighlightExact(b: Box, cells: seq<Cell>)
    requires Focused(b) && Shows(b, cells)
    ensures (forall i :: 0 <= i < |cells| && !LeftMarker(b, i) && !RightMarker(b, i) ==>
               (cells[i].pen.selected <==> CursorAbs(Low(b)) <= b.front.offset + i < CursorAbs(High(b))))
       <==> !(HasSelection(b) && Drags(b)
              && exists i :: 0 <= i < |cells| && !LeftMarker(b, i) && !RightMarker(b, i))
  {
    AbsInRange(b.front);
    AbsInRange(b.back);
  }
}
