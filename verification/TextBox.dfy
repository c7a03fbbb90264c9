/** The text box: a text and two list cursors, changed in place. */
module TextBoxClass {
  import opened Words
  import opened Keys
  import opened ListIdxState
  import opened ListIdxLaws
  import opened ListIdxClass
  import opened TextBoxLaws
  import opened TextBoxView
  import S = TextBoxState
  import F = FlatEditor

  class TextBox {
    var width: nat
    var lenMax: u16
    var password: bool
    var numbersOnly: bool
    var frame: bool
    var padding: bool
    var cursorShow: bool
    var focus: bool
    var dirty: bool
    var bytes: string
    var current: string
    var work: string
    var clip: string
    const idxFront: ListIdx
    const idxBack: ListIdx

    ghost function Model(): S.Box
      reads this, idxFront, idxBack
    {
      S.Box(S.Config(width, lenMax, password, numbersOnly, frame, padding, cursorShow),
            focus, dirty, bytes, current, work, clip, idxFront.State(), idxBack.State())
    }

    ghost predicate Valid()
      reads this, idxFront, idxBack
    {
      idxFront != idxBack && S.Good(Model())
    }

    constructor ()
      ensures Valid() && fresh(idxFront) && fresh(idxBack)
      ensures !focus && lenMax == 64 && current == bytes == "" && work == "" && clip == "" && !dirty
      ensures frame && padding && cursorShow && !password && !numbersOnly && width == 10
      ensures idxFront.win == idxBack.win == 10 && idxFront.size == idxBack.size == 1
    {
      width, lenMax := 10, 64;
      password, numbersOnly, frame, padding, cursorShow := false, false, true, true, true;
      focus, dirty := false, false;
      bytes, current, work, clip := "", "", "", "";
      var front := new ListIdx(10);
      var back := new ListIdx(10);
      idxFront, idxBack := front, back;
      new;
      SetCurrent("");
    }

    method SetWidth(width: u16)
      requires idxFront != idxBack
      modifies this, idxFront, idxBack
      ensures Model() == S.WidthSet(old(Model()), width)
    {
      hide WinSet;
      if width < 4 {
        return;
      }
      this.width := width;
      var w := width;
      if frame {
        w := w - 2;
      }
      if padding {
        w := w - 2;
      }
      idxFront.SetWin(w);
      idxBack.SetWin(w);
    }

    method SetCursorBound(bnd: u32)
      requires idxFront != idxBack
      modifies idxFront, idxBack
      ensures Model() == S.CursorBounds(old(Model()), bnd)
    {
      hide CursorBoundSet;
      idxFront.SetCursorBound(bnd);
      idxBack.SetCursorBound(bnd);
    }

    method SetFocus(foc: bool, accept: bool)
      requires idxFront != idxBack
      modifies this, idxFront, idxBack
      ensures Model() == S.FocusSet(old(Model()), foc, accept)
    {
      hide SizeSet, CursorEndSet, Reset, CursorEndMoves;
      focus := foc;
      if foc {
        work := current;
        idxFront.SetSize(S.Trunc32(|work| + 1));
        var _ := idxFront.SetCursorEnd();
        idxBack.CopyFrom(idxFront);
        return;
      }
      if accept {
        current := work;
        bytes := current;
      }
      idxFront.SetSize(S.Trunc32(|current| + 1));
      var _ := idxFront.Reset();
      idxBack.CopyFrom(idxFront);
    }

    method SetSelection(start: u16, len: u16)
      requires idxFront != idxBack
      modifies this, idxFront, idxBack
      ensures Model() == S.SelectionSet(old(Model()), start, len)
    {
      hide Reset, Inc, IncN, S.Trunc16;
      var max := S.Trunc16(if focus then |work| else |current|);
      var first, last := start, Add16(start, len);
      var _ := idxFront.Reset();
      ghost var home := idxFront.State();
      FirstPlace(home);
      if first > max {
        first := max;
      }
      IncTo(home, 0, first);
      idxBack.CopyFrom(idxFront);
      if len == 0 || last > max {
        last := max;
      }
      IncTo(home, first, last);
    }

    /** The loops of `SetSelection`: steps from one place to a later one. */
    method IncTo(ghost home: Idx, from: nat, to: nat)
      requires idxFront.State() == IncN(home, from)
      modifies idxFront
      ensures idxFront.State() == IncN(home, Max(from, to))
    {
      hide Inc;
      var idx := from;
      while idx < to
        invariant from <= idx <= Max(from, to)
        invariant idxFront.State() == IncN(home, idx)
      {
        var _ := idxFront.Inc();
        idx := idx + 1;
      }
    }

    static lemma FirstPlace(home: Idx)
      ensures IncN(home, 0) == home
    {
    }

    method SetCurrent(str: string)
      requires idxFront != idxBack
      modifies this, idxFront, idxBack
      ensures Model() == S.CurrentSet(old(Model()), str)
    {
      bytes := str;
      current := str;
      if focus {
        return;
      }
      idxFront.SetSize(S.Trunc32(|current| + 1));
      idxBack.SetSize(idxFront.size);
    }

    method SetWork(ustr: string)
      requires idxFront != idxBack
      modifies this, idxFront, idxBack
      ensures Model() == S.UstrWorkSet(old(Model()), ustr)
    {
      work := ustr;
      if !focus {
        return;
      }
      idxFront.SetSize(S.Trunc32(|work| + 1));
      var _ := idxFront.SetCursorEnd();
      idxBack.CopyFrom(idxFront);
    }

    method ListIdxLow() returns (idx: ListIdx)
      ensures idx == if idxFront.CursorAbs() > idxBack.CursorAbs() then idxBack else idxFront
      ensures idx.State() == S.Low(Model())
    {
      idx := if idxFront.CursorAbs() > idxBack.CursorAbs() then idxBack else idxFront;
    }

    method ListIdxHigh() returns (idx: ListIdx)
      ensures idx == if idxFront.CursorAbs() > idxBack.CursorAbs() then idxFront else idxBack
      ensures idx.State() == S.High(Model())
    {
      idx := if idxFront.CursorAbs() > idxBack.CursorAbs() then idxFront else idxBack;
    }

    /** First part of `SelectionReplace`: both ends meet where the selection was. */
    method ClearSelection()
      requires Valid() && focus
      modifies this`work, idxFront, idxBack
      ensures var b := old(Model());
              Model() == b.(work := S.Shortened(b), front := S.Collapsed(b), back := S.Collapsed(b))
    {
      hide SizeSet, Usable;
      FocusedFacts(Model());
      var low := ListIdxLow();
      var high := ListIdxHigh();
      work := work[..low.CursorAbs()] + work[high.CursorAbs()..];
      low.SetSize(|work| + 1);
      high.CopyFrom(low);
    }

    /** The sizes agree with the text afterwards exactly if there was room; otherwise the length wraps
        around and the loop goes on for almost 2^64 insertions. */
    method SelectionReplace(str: string)
      requires Valid() && focus
      modifies this`work, idxFront, idxBack
      ensures Model() == S.SelectionReplace(old(Model()), str)
      ensures Valid() <==> old(HasRoom(Model()))
    {
      hide Insert, S.Collapsed, Usable, Framed, S.Shortened, S.Good, SameShape;
      ghost var b := Model();
      S.CollapsedInRange(b);
      ReplaceNeedsRoom(b, str);
      ClearSelection();
      var len: u64 := Min(|work| + |str|, lenMax);
      len := Sub64(len, |work|);
      var at := idxFront.CursorAbs();
      work := work[..at] + str[..Min(len, |str|)] + work[at..];
      ghost var inserted := b.(work := work);
      var i := 0;
      while i < len
        invariant 0 <= i <= len
        invariant Model() == inserted.(front := InsertN(S.Collapsed(b), i), back := S.Collapsed(b))
      {
        idxFront.Insert();
        i := i + 1;
      }
      idxBack.CopyFrom(idxFront);
    }

    method SetClipboard()
      requires Valid()
      modifies this`clip
      ensures Valid()
      ensures Model() == S.ClipboardSet(old(Model()))
    {
      if !focus {
        clip := bytes;
        return;
      }
      var low := ListIdxLow();
      var high := ListIdxHigh();
      clip := work[low.CursorAbs()..high.CursorAbs()];
    }

    method Paste(str: string)
      requires Valid()
      modifies this, idxFront, idxBack
      ensures Model() == S.Paste(old(Model()), str)
      ensures old(focus) ==> (Valid() <==> old(HasRoom(Model())))
    {
      if !focus {
        SetCurrent(str);
      } else {
        SelectionReplace(str);
      }
    }

    // ---- navigation

    /** What a pointer into the text finds; the text ends with a null character. */
    function At(p: nat): char
      requires p <= |work|
      reads this
    {
      if p == |work| then '\0' else work[p]
    }

    method CursorJump(right: bool) returns (changed: bool)
      requires idxFront.CursorAbs() <= |work| < TWO_16
      modifies idxFront
      ensures var i, at := old(idxFront.State()), old(idxFront.CursorAbs());
              var to := if right then F.WordRight(work, at) else F.WordLeft(work, at);
              && idxFront.State() == (if right then IncN(i, to - at) else DecN(i, at - to))
              && (changed <==> to != at)
    {
      hide Inc, Dec, IsBoundary, F.WordRight, F.WordLeft, F.RightStop, F.LeftStop;
      NullIsNoBoundary();
      ghost var first := idxFront.State();
      if |work| == 0 {
        return false;
      }
      var idxAbs: u16 := idxFront.CursorAbs();
      var idxStop: u16 := if right then |work| else 0;
      var cursor: nat := idxAbs;
      var prev: int := -1;
      ghost var start, steps: nat := idxAbs, 0;
      changed := false;
      while idxAbs != idxStop
        invariant idxAbs == cursor <= |work|
        invariant right ==> F.WordRight(work, start) == F.WordRight(work, cursor)
        invariant !right ==> F.WordLeft(work, start) == F.WordLeft(work, cursor)
        invariant prev == -1 || prev == (if cursor > 0 then cursor - 1 else 0)
        invariant changed <==> steps != 0
        invariant right ==> cursor == start + steps && idxFront.State() == IncN(first, steps)
        invariant !right ==> start == cursor + steps && idxFront.State() == DecN(first, steps)
        decreases if right then |work| - cursor else cursor
      {
        changed := true;
        steps := steps + 1;
        if right {
          F.WordRightStep(work, cursor);
          var _ := idxFront.Inc();
          cursor, idxAbs := cursor + 1, idxAbs + 1;
        } else {
          F.WordLeftStep(work, cursor);
          var _ := idxFront.Dec();
          cursor, idxAbs := cursor - 1, idxAbs - 1;
        }
        if idxAbs != 0 {
          prev := cursor - 1;
        }
        if prev >= 0 && IsBoundary(At(prev)) == !right && IsBoundary(At(cursor)) == right {
          break;
        }
      }
      assert cursor == if right then F.WordRight(work, start) else F.WordLeft(work, start);
    }

    /** The part of `navigate` that moves the cursor. */
    method MoveFront(key: KeyUser) returns (processed: bool, changed: bool)
      requires Valid() && focus && S.Countable(Model(), key)
      modifies idxFront
      ensures S.Move(idxFront.State(), processed, changed) == S.FrontMove(old(Model()), key)
    {
      hide Inc, Dec, Reset, CursorEndSet, CursorEndMoves, IncN, DecN, ListKey, S.CursorJump, S.Good;
      hide F.WordRight, F.WordLeft, F.RightStop, F.LeftStop, SameShape;
      FocusedFacts(Model());
      processed := true;
      changed := false;
      if IsCode(key, KEY_HOME) {
        changed := idxFront.Reset();
      } else if IsCode(key, KEY_END) {
        changed := idxFront.SetCursorEnd();
      } else if (IsCode(key, KEY_LEFT) || IsCode(key, KEY_RIGHT)) && HasCtrl(key) {
        S.CursorJumpMoves(Model(), IsCode(key, KEY_RIGHT));
        changed := CursorJump(IsCode(key, KEY_RIGHT));
      } else if IsCode(key, KEY_LEFT) || IsCode(key, KEY_UP) {
        changed := idxFront.Dec();
      } else if IsCode(key, KEY_RIGHT) || IsCode(key, KEY_DOWN) {
        changed := idxFront.Inc();
      } else if IsCode(key, KEY_PGUP) || IsCode(key, KEY_PGDN) {
        S.PageKeys(idxFront.State(), key);
        changed := idxFront.KeyProcess(key, "");
      } else {
        processed := false;
      }
    }

    method Navigate(key: KeyUser) returns (changed: bool)
      requires Valid() && focus && S.Countable(Model(), key)
      modifies idxFront, idxBack
      ensures Valid()
      ensures S.Handled(Model(), changed) == S.Navigate(old(Model()), key)
    {
      hide S.FrontMove, S.Good;
      S.NavigateGood(Model(), key);
      var processed;
      processed, changed := MoveFront(key);
      if processed && !HasShift(key) {
        idxBack.CopyFrom(idxFront);
        changed := true;
      }
    }

    // ---- keys

    method KeyProcess(key: KeyUser) returns (done: bool)
      requires Valid() && (focus ==> S.Countable(Model(), key))
      modifies this, idxFront, idxBack
      ensures focus == old(focus)
      ensures S.Handled(Model(), done) == S.KeyProcess(old(Model()), key)
      ensures Valid() <==> old(focus ==> FitsKey(Model(), key))
    {
      hide Reset, CursorEndSet, CursorEndMoves, Usable, Framed;
      hide S.SelectionReplace, S.Backspace, S.Delete, S.Type, S.Navigate;
      hide FitsKey, Kept, Refines, SameReply, Aligned, F.Press;
      if focus {
        KeyRefines(Model(), key);
      }
      dirty := false;
      if IsCode(key, KEY_CTRL_X) {
        SetClipboard();
        if !focus {
          current := "";
        } else {
          SelectionReplace("");
        }
        dirty := true;
        return true;
      }
      if IsCode(key, KEY_CTRL_C) {
        SetClipboard();
        return true;
      }
      if !focus {
        return false;
      }
      if IsCode(key, KEY_CTRL_A) {
        var back := idxBack.Reset();
        var front := idxFront.SetCursorEnd();
        dirty := back || front;
        return true;
      }
      var moved := Navigate(key);
      if moved {
        dirty := true;
        return true;
      }
      var isSelection := idxFront.CursorAbs() != idxBack.CursorAbs();
      if IsBackspace(key) {
        done := Backspace(isSelection);
      } else if IsCode(key, KEY_DELETE) {
        done := Delete(isSelection);
      } else if !key.Print? {
        done := false;
      } else {
        done := Type(key.ch, isSelection);
      }
    }

    /** The part of `keyProcess` for the two backspace codes. */
    method Backspace(isSelection: bool) returns (done: bool)
      requires Valid() && focus && isSelection == (idxFront.CursorAbs() != idxBack.CursorAbs())
      modifies this`work, this`dirty, idxFront, idxBack
      ensures S.Handled(Model(), done) == S.Backspace(old(Model()))
    {
      hide PrevErase, S.SelectionReplace, Usable;
      FocusedFacts(Model());
      if isSelection {
        SelectionReplace("");
        dirty := true;
        return true;
      }
      PrevEraseLaw(idxFront.State());
      AbsInRange(PrevErase(idxFront.State()));
      var erased := idxFront.PrevErase();
      if !erased {
        return false;
      }
      work := work[..idxFront.CursorAbs()] + work[idxFront.CursorAbs() + 1..];
      idxBack.CopyFrom(idxFront);
      dirty := true;
      return true;
    }

    /** The part of `keyProcess` for the delete key. */
    method Delete(isSelection: bool) returns (done: bool)
      requires Valid() && focus && isSelection == (idxFront.CursorAbs() != idxBack.CursorAbs())
      modifies this`work, this`dirty, idxFront, idxBack
      ensures S.Handled(Model(), done) == S.Delete(old(Model()))
    {
      hide CurrErase, S.SelectionReplace, Usable;
      FocusedFacts(Model());
      if isSelection {
        SelectionReplace("");
        dirty := true;
        return true;
      }
      if idxFront.CursorAbs() == idxFront.size - 1 {
        return false;
      }
      var cursorAbs := idxFront.CursorAbs();
      var erased := idxFront.CurrErase();
      if !erased {
        return false;
      }
      idxBack.CopyFrom(idxFront);
      work := work[..cursorAbs] + work[cursorAbs + 1..];
      dirty := true;
      return true;
    }

    /** The part of `keyProcess` for printable characters. */
    method Type(ch: char, isSelection: bool) returns (done: bool)
      requires Valid() && focus && isSelection == (idxFront.CursorAbs() != idxBack.CursorAbs())
      modifies this`work, this`dirty, idxFront, idxBack
      ensures S.Handled(Model(), done) == S.Type(old(Model()), ch)
    {
      hide Insert, S.SelectionReplace, Usable;
      FocusedFacts(Model());
      if numbersOnly && (ch < '0' || ch > '9') {
        return false;
      }
      if isSelection {
        SelectionReplace([ch]);
        dirty := true;
        return true;
      }
      if |work| >= lenMax {
        return false;
      }
      work := work[..idxFront.CursorAbs()] + [ch] + work[idxFront.CursorAbs()..];
      idxFront.Insert();
      idxBack.CopyFrom(idxFront);
      dirty := true;
      return true;
    }

    // ---- output

    /** The body of the loop in `print`: one cell and the pens around it. */
    method PrintCell(sent: seq<Token>, idxRel: nat, low: u32, high: u32, selection: bool)
      returns (out: seq<Token>, ghost cell: Cell)
      requires Valid() && idxRel < idxFront.win
      requires low == CursorAbs(S.Low(Model())) && high == CursorAbs(S.High(Model()))
      requires selection == HasSelection(Model())
      requires PenAfter(sent) == Carried(Model(), idxRel)
      ensures Painted(out) == Painted(sent) + [cell] && Expected(Model(), idxRel, cell)
      ensures idxRel + 1 < idxFront.win ==> PenAfter(out) == Carried(Model(), idxRel + 1)
    {
      hide Painted, PenAfter, Highlighted, Carried, HasSelection, CharAt, S.Good, S.Low, S.High;
      ghost var b := Model();
      if LeftMarker(b, idxRel) {
        if idxRel + 1 < idxFront.win {
          MarkerPens(b, idxRel);
        }
      } else {
        CharPens(b, idxRel);
      }
      var idxAbs := idxFront.offset + idxRel;
      out := sent;
      if idxRel == 0 && idxFront.offset != 0 {
        Sent(out, Glyph(MORE_LEFT));
        out := out + [Glyph(MORE_LEFT)];
        cell := Cell(MORE_LEFT, PenAfter(sent));
        return;
      }
      if idxRel == idxFront.win - 1 && !idxFront.EndReached() {
        Sent(out, Glyph(MORE_RIGHT));
        out := out + [Glyph(MORE_RIGHT)];
        cell := Cell(MORE_RIGHT, PenAfter(sent));
        return;
      }
      out, cell := PrintChar(sent, idxAbs, low, high, selection);
      assert cell.ch == ShownChar(b, idxRel) && !LeftMarker(b, idxRel) && !RightMarker(b, idxRel);
    }

    /** The part of `PrintCell` for a character. */
    method PrintChar(sent: seq<Token>, idxAbs: nat, low: u32, high: u32, selection: bool)
      returns (out: seq<Token>, ghost cell: Cell)
      requires !PenAfter(sent).underlined
      requires var begun := if selection && idxAbs == low then Pen(true, false) else PenAfter(sent);
               var closed := if selection && idxAbs == high then PLAIN else begun;
               && closed == Pen(Highlighted(Model(), idxAbs), false)
               && (CursorAt(Model(), idxAbs) ==> Highlighted(Model(), idxAbs) == (selection && idxAbs < high))
      ensures Painted(out) == Painted(sent) + [cell]
      ensures cell == Cell(CharAt(Model(), idxAbs), Pen(Highlighted(Model(), idxAbs), CursorAt(Model(), idxAbs)))
      ensures PenAfter(out) == Pen(Highlighted(Model(), idxAbs), false)
    {
      hide Painted, PenAfter, Highlighted, CharAt;
      var ch := CharToPrint(idxAbs);
      out := SwitchPen(sent, selection && idxAbs == low, selection && idxAbs == high);
      var cursorPrint := focus && cursorShow && idxAbs == idxFront.CursorAbs();
      cell := Cell(ch, Pen(Highlighted(Model(), idxAbs), cursorPrint));
      out := PrintGlyph(out, ch, cursorPrint, selection && idxAbs < high);
    }

    /** The text is extended by one blank; nothing but blanks follows it. */
    method CharToPrint(idxAbs: nat) returns (ch: char)
      ensures ch == CharAt(Model(), idxAbs)
    {
      var strIn := (if focus then work else current) + " ";
      if idxAbs >= |strIn| {
        ch := ' ';
      } else if password && idxAbs < |strIn| - 1 {
        ch := '*';
      } else {
        ch := strIn[idxAbs];
      }
    }

    /** The part of `PrintCell` in front of the character. */
    static method SwitchPen(sent: seq<Token>, atLow: bool, atHigh: bool) returns (out: seq<Token>)
      ensures Painted(out) == Painted(sent)
      ensures PenAfter(out) == if atHigh then PLAIN
                               else if atLow then PenAfter(sent).(selected := true)
                               else PenAfter(sent)
    {
      hide Painted, PenAfter;
      out := sent;
      if atLow {
        Sent(out, SelectionPen);
        out := out + [SelectionPen];
      }
      if atHigh {
        Sent(out, ResetPen);
        out := out + [ResetPen];
        Sent(out, ContentPen);
        out := out + [ContentPen];
      }
    }

    /** The part of `PrintCell` from the character on. */
    static method PrintGlyph(sent: seq<Token>, ch: char, cursorPrint: bool, selected: bool) returns (out: seq<Token>)
      requires !PenAfter(sent).underlined
      ensures Painted(out) == Painted(sent) + [Cell(ch, PenAfter(sent).(underlined := cursorPrint))]
      ensures PenAfter(out) == if cursorPrint then Pen(selected, false) else PenAfter(sent)
    {
      hide Painted, PenAfter;
      out := sent;
      if cursorPrint {
        Sent(out, UnderlinePen);
        out := out + [UnderlinePen];
      }
      Sent(out, Glyph(ch));
      out := out + [Glyph(ch)];
      if cursorPrint {
        Sent(out, ResetPen);
        out := out + [ResetPen];
        var restore := if selected then SelectionPen else ContentPen; // after a reset only
        Sent(out, restore);
        out := out + [restore];
      }
    }

    method Print() returns (out: seq<Token>)
      requires Valid()
      ensures var b := Model();
              exists cells :: Painted(out) == Lead(b) + cells + Trail(b) && Shows(b, cells)
    {
      hide Painted, PenAfter, Expected, Carried, Lead, Trail, S.Good;
      var lowIdx := ListIdxLow();
      var highIdx := ListIdxHigh();
      var low, high := lowIdx.CursorAbs(), highIdx.CursorAbs();
      var selection := focus && low != high;
      ghost var b := Model();

      out := PrintLead();
      var first := if selection && idxFront.offset >= low then SelectionPen else ContentPen;
      Sent(out, first);
      out := out + [first];
      assert PenAfter(out) == Pen(selection && idxFront.offset >= low, false);
      CarriedStart(b);

      ghost var cells: seq<Cell> := [];
      var idxRel := 0;
      while idxRel < idxFront.win
        invariant 0 <= idxRel <= idxFront.win && |cells| == idxRel
        invariant Painted(out) == Lead(b) + cells
        invariant forall i :: 0 <= i < idxRel ==> Expected(b, i, cells[i])
        invariant idxRel < idxFront.win ==> PenAfter(out) == Carried(b, idxRel)
      {
        ghost var cell;
        out, cell := PrintCell(out, idxRel, low, high, selection);
        cells := cells + [cell];
        idxRel := idxRel + 1;
      }
      out := PrintTrail(out);
      assert Painted(out) == Lead(b) + cells + Trail(b);
    }

    /** The part of `print` in front of the cells. */
    method PrintLead() returns (out: seq<Token>)
      ensures Painted(out) == Lead(Model()) && PenAfter(out) == PLAIN
    {
      out := [FramePen];
      if frame {
        Sent(out, Glyph(if focus then '>' else '|'));
        out := out + [Glyph(if focus then '>' else '|')];
      }
      if padding {
        Sent(out, Glyph(' '));
        out := out + [Glyph(' ')];
      }
      Sent(out, ResetPen);
      out := out + [ResetPen];
    }

    /** The part of `print` behind the cells. */
    method PrintTrail(sent: seq<Token>) returns (out: seq<Token>)
      ensures Painted(out) == Painted(sent) + Trail(Model()) && PenAfter(out) == PLAIN
    {
      hide Painted, PenAfter;
      Sent(sent, ResetPen);
      out := sent + [ResetPen];
      Sent(out, FramePen);
      out := out + [FramePen];
      if padding {
        Sent(out, Glyph(' '));
        out := out + [Glyph(' ')];
      }
      if frame {
        Sent(out, Glyph(if focus then '<' else '|'));
        out := out + [Glyph(if focus then '<' else '|')];
      }
      Sent(out, ResetPen);
      out := out + [ResetPen];
    }
  }
}
