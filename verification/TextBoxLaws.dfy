/** The windowed text box refines the flat editor. */
module TextBoxLaws {
  import opened Decimals
  import opened Results
  import opened Words
  import opened Keys
  import opened ListIdxState
  import opened ListIdxLaws
  import opened TextBoxState
  import F = FlatEditor

  /** What a user sees of a focused box. */
  function Flatten(b: Box): F.Flat {
    F.Flat(b.work, Abs(b.front), Abs(b.back), b.clip, b.dirty)
  }

  function RulesOf(b: Box): F.Rules {
    F.Rules(b.cfg.lenMax, b.cfg.numbersOnly, b.front.jump)
  }

  predicate Focused(b: Box) {
    Good(b) && b.focus
  }

  predicate FramedBox(b: Box) {
    Focused(b) && Framed(b.front) && Framed(b.back)
  }

  /** What every step of a focused box keeps; the accepted text is not touched in focus. */
  predicate Kept(b: Box, h: Box) {
    && Focused(h) && SameShape(b.front, h.front) && (FramedBox(b) ==> FramedBox(h)) && h.cfg == b.cfg
    && h.current == b.current && h.bytes == b.bytes
  }

  /** Removing the selection leaves the low end where it is: its window is not
      scrolled, or the text still fills the window, or nothing follows the selection. */
  predicate KeepsPlace(b: Box)
    requires Focused(b)
  {
    || Low(b).offset == 0
    || |Shortened(b)| + 1 >= b.front.win
    || Abs(High(b)) == |b.work|
  }

  /** What the selection leaves is not longer than the limit, so that something may be inserted. */
  predicate HasRoom(b: Box)
    requires Focused(b)
  {
    |Shortened(b)| <= b.cfg.lenMax
  }

  lemma FocusedFacts(b: Box)
    requires Focused(b)
    ensures CursorAbs(b.front) == Abs(b.front) <= |b.work|
    ensures CursorAbs(b.back) == Abs(b.back) <= |b.work|
    ensures F.Within(Flatten(b))
    ensures Abs(Low(b)) == F.Low(Flatten(b)) && Abs(High(b)) == F.High(Flatten(b))
    ensures |Shortened(b)| == |b.work| - (Abs(High(b)) - Abs(Low(b)))
  {
    AbsInRange(b.front);
    AbsInRange(b.back);
  }

  // ---- replacing the selection

  /** Where the two ends meet once the selection is gone. */
  lemma CollapsedPlace(b: Box)
    requires Focused(b)
    ensures var n := |Shortened(b)| + 1;
            Abs(Collapsed(b)) == (if KeepsPlace(b) then Abs(Low(b))
                                  else Min(Abs(Low(b)) + (b.front.win - n), n - 1))
    ensures Abs(Collapsed(b)) == Abs(Low(b)) <==> KeepsPlace(b)
    ensures FramedBox(b) ==> Framed(Collapsed(b))
  {
    hide SizeSet, Shortened, Framed, Usable, CursorAbs, Abs, Good, Low, High, Flatten, F.Within;
    FocusedFacts(b);
    LowIsUsable(b);
    ShrunkPlace(Low(b), Abs(High(b)), |Shortened(b)| + 1);
  }

  lemma LowIsUsable(b: Box)
    requires Focused(b)
    ensures Usable(Low(b)) && Low(b).size == |b.work| + 1 && Low(b).win == b.front.win
    ensures Abs(Low(b)) <= Abs(High(b)) <= |b.work|
    ensures FramedBox(b) ==> Framed(Low(b))
  {
    hide Usable;
    FocusedFacts(b);
  }

  /** A list from which the entries between the cursor and `hi` are taken. */
  lemma ShrunkPlace(i: Idx, hi: nat, n: nat)
    requires Usable(i) && Abs(i) <= hi < i.size && n == i.size - (hi - Abs(i))
    ensures var keeps := i.offset == 0 || n >= i.win || hi == i.size - 1;
            && Abs(SizeSet(i, n)) == (if keeps then Abs(i) else Min(Abs(i) + (i.win - n), n - 1))
            && (Abs(SizeSet(i, n)) == Abs(i) <==> keeps)
    ensures Framed(i) ==> Framed(SizeSet(i, n))
  {
    assert n <= i.size < 0x8000_0000;
    hide SizeSet, Framed, Usable;
    ResizeLaw(i, n);
  }

  lemma Inserted(rest: string, pre: string, at: nat)
    requires at <= |rest|
    ensures var work := rest[..at] + pre + rest[at..];
            work[at..at + |pre|] == pre && work[..at] + work[at + |pre|..] == rest
  {
  }

  lemma {:induction false} InsertSize(i: Idx, n: nat)
    ensures InsertN(i, n).size == (i.size + n) % TWO_32
  {
    hide Insert;
    if n != 0 {
      InsertSize(i, n - 1);
      InsertGrows(InsertN(i, n - 1));
    }
  }

  lemma InsertGrows(i: Idx)
    ensures Insert(i).size == (i.size + 1) % TWO_32
  {
  }

  lemma SpaceIsFitting(used: u64, ins: string, lenMax: u16)
    requires used <= lenMax
    ensures FreeSpace(used, ins, lenMax) == |F.Fitting(used, ins, lenMax)| <= |ins|
    ensures ins[..FreeSpace(used, ins, lenMax)] == F.Fitting(used, ins, lenMax)
  {
  }

  /** With room the text becomes the shortened one with the fitting prefix at the place of the cursor. */
  lemma ReplacedText(b: Box, ins: string)
    requires Focused(b) && HasRoom(b)
    ensures Abs(Collapsed(b)) <= |Shortened(b)|
    ensures var pre := F.Fitting(|Shortened(b)|, ins, b.cfg.lenMax);
            var rest, at, idx := Shortened(b), Abs(Collapsed(b)), InsertN(Collapsed(b), |pre|);
            SelectionReplace(b, ins) == b.(work := rest[..at] + pre + rest[at..], front := idx, back := idx)
  {
    hide Collapsed, InsertN, FreeSpace, F.Fitting, Shortened, Usable;
    CollapsedInRange(b);
    SpaceIsFitting(|Shortened(b)|, ins, b.cfg.lenMax);
  }

  lemma ReplacedEnds(b: Box, ins: string)
    requires Focused(b) && HasRoom(b)
    ensures var r := SelectionReplace(b, ins);
            var pre := F.Fitting(|Shortened(b)|, ins, b.cfg.lenMax);
            && Usable(r.front) && r.front == r.back && SameShape(b.front, r.front)
            && r.front.size == |Shortened(b)| + |pre| + 1
            && Abs(r.front) == Abs(Collapsed(b)) + |pre|
            && (FramedBox(b) ==> Framed(r.front))
  {
    hide Shortened, SizeSet, InsertN, F.Fitting, SelectionReplace;
    CollapsedInRange(b);
    CollapsedPlace(b);
    ReplacedText(b, ins);
    InsertNLaw(Collapsed(b), |F.Fitting(|Shortened(b)|, ins, b.cfg.lenMax)|);
  }

  /** With room the replacement keeps the box in order: the text is the shortened one with the
      fitting prefix at one place, and both cursors stand right behind that prefix. */
  lemma ReplaceKeepsOrder(b: Box, ins: string)
    requires Focused(b) && HasRoom(b)
    ensures var r := SelectionReplace(b, ins);
            var pre := F.Fitting(|Shortened(b)|, ins, b.cfg.lenMax);
            && r.front == r.back
            && |r.work| == |Shortened(b)| + |pre| <= b.cfg.lenMax
            && Abs(r.front) == Abs(Collapsed(b)) + |pre| <= |r.work|
            && r.work[Abs(Collapsed(b))..Abs(r.front)] == pre
            && r.work[..Abs(Collapsed(b))] + r.work[Abs(r.front)..] == Shortened(b)
            && Kept(b, r) && r.clip == b.clip && r.dirty == b.dirty
  {
    hide SizeSet, InsertN, Shortened, F.Fitting, SelectionReplace, Collapsed;
    CollapsedInRange(b);
    ReplacedText(b, ins);
    ReplacedEnds(b, ins);
    Inserted(Shortened(b), F.Fitting(|Shortened(b)|, ins, b.cfg.lenMax), Abs(Collapsed(b)));
  }

  /** Without room the free space wraps around: everything is inserted, the loop over the cursors runs
      almost 2^64 times, and the list ends up with the size of a text of the limit. */
  lemma ReplaceOverruns(b: Box, ins: string)
    requires Focused(b) && !HasRoom(b)
    ensures var r := SelectionReplace(b, ins);
            var n := FreeSpace(|Shortened(b)|, ins, b.cfg.lenMax);
            && n == TWO_64 - (|Shortened(b)| - b.cfg.lenMax)
            && (|ins| <= n ==> |r.work| == |Shortened(b)| + |ins|)
            && r.front.size == r.back.size == b.cfg.lenMax + 1
  {
    hide Shortened, SizeSet, InsertN;
    CollapsedInRange(b);
    InsertSize(Collapsed(b), FreeSpace(|Shortened(b)|, ins, b.cfg.lenMax));
  }

  /** A replacement keeps sizes and text in agreement, and the box in order, exactly when there was room. */
  lemma ReplaceNeedsRoom(b: Box, ins: string)
    requires Focused(b)
    ensures var r := SelectionReplace(b, ins);
            && (r.front.size == |r.work| + 1 <==> HasRoom(b))
            && (Good(r) <==> HasRoom(b)) && (Kept(b, r) <==> HasRoom(b))
            && r.dirty == b.dirty
  {
    hide Shortened, SizeSet, InsertN, FreeSpace, Framed, Usable;
    CollapsedInRange(b);
    if HasRoom(b) {
      ReplaceKeepsOrder(b, ins);
    } else {
      ReplaceOverruns(b, ins);
    }
  }

  /** With room it is the flat replacement exactly when the low end keeps its place. */
  lemma ReplaceRefines(b: Box, ins: string)
    requires Focused(b) && HasRoom(b)
    ensures F.Within(Flatten(b))
    ensures Flatten(SelectionReplace(b, ins)) == F.Replace(Flatten(b), ins, RulesOf(b)) <==> KeepsPlace(b)
  {
    hide SizeSet, InsertN, F.Fitting, Collapsed, Usable, Framed, SelectionReplace, Shortened, KeepsPlace, Good;
    FocusedFacts(b);
    CollapsedPlace(b);
    ReplaceKeepsOrder(b, ins);
    ReplacedText(b, ins);
    ShortenedParts(b);
  }

  lemma ShortenedParts(b: Box)
    requires Focused(b)
    ensures var lo, hi := Abs(Low(b)), Abs(High(b));
            && lo <= hi <= |b.work| && lo <= |Shortened(b)|
            && Shortened(b)[..lo] == b.work[..lo] && Shortened(b)[lo..] == b.work[hi..]
  {
    hide Usable;
    FocusedFacts(b);
  }

  // ---- single keys

  lemma JumpRefines(b: Box, right: bool)
    requires Focused(b) && |b.work| < TWO_16
    ensures Follows(b.front, CursorJump(b, right).front)
    ensures Abs(b.front) <= |b.work|
    ensures var at := Abs(b.front);
            var to := if right then F.WordRight(b.work, at) else F.WordLeft(b.work, at);
            Abs(CursorJump(b, right).front) == to && (CursorJump(b, right).changed <==> to != at)
  {
    hide CursorJump, Framed, Usable, F.WordRight, F.WordLeft, F.RightStop, F.LeftStop;
    FocusedFacts(b);
    CursorJumpGood(b, right);
    CursorJumpMoves(b, right);
    var at := Abs(b.front);
    if right {
      IncNLaw(b.front, F.WordRight(b.work, at) - at);
    } else {
      DecNLaw(b.front, at - F.WordLeft(b.work, at));
    }
  }

  predicate MovesTo(m: Move, i: Idx, t: Option<nat>) {
    && (m.done <==> t.Some?)
    && (t.Some? ==> Abs(m.front) == t.value && (m.changed <==> t.value != Abs(i)))
    && (t.None? ==> m.front == i && !m.changed)
  }

  lemma WordMoveRefines(b: Box, key: KeyUser)
    requires Focused(b) && IsJump(key) && Countable(b, key)
    ensures F.Within(Flatten(b))
    ensures MovesTo(FrontMove(b, key), b.front, F.Target(Flatten(b), RulesOf(b), key))
  {
    FocusedFacts(b);
    JumpRefines(b, key.code == KEY_RIGHT);
  }

  lemma PageMoveRefines(b: Box, key: KeyUser)
    requires Focused(b) && (IsCode(key, KEY_PGUP) || IsCode(key, KEY_PGDN))
    ensures F.Within(Flatten(b))
    ensures MovesTo(FrontMove(b, key), b.front, F.Target(Flatten(b), RulesOf(b), key))
  {
    hide Framed, DecN, IncN, DecNMoves, IncNMoves;
    FocusedFacts(b);
    DecNLaw(b.front, b.front.jump);
    IncNLaw(b.front, b.front.jump);
  }

  lemma EndMoveRefines(b: Box, key: KeyUser)
    requires Focused(b) && (IsCode(key, KEY_HOME) || IsCode(key, KEY_END))
    ensures F.Within(Flatten(b))
    ensures MovesTo(FrontMove(b, key), b.front, F.Target(Flatten(b), RulesOf(b), key))
  {
    FocusedFacts(b);
    ResetLaw(b.front);
    CursorEndLaw(b.front);
  }

  lemma StepMoveRefines(b: Box, key: KeyUser)
    requires Focused(b) && !IsJump(key) && key.Ctrl?
    requires key.code == KEY_LEFT || key.code == KEY_RIGHT || key.code == KEY_UP || key.code == KEY_DOWN
    ensures F.Within(Flatten(b))
    ensures MovesTo(FrontMove(b, key), b.front, F.Target(Flatten(b), RulesOf(b), key))
  {
    FocusedFacts(b);
    DecLaw(b.front);
    IncLaw(b.front);
  }

  lemma MoveRefines(b: Box, key: KeyUser)
    requires Focused(b) && Countable(b, key)
    ensures F.Within(Flatten(b))
    ensures MovesTo(FrontMove(b, key), b.front, F.Target(Flatten(b), RulesOf(b), key))
  {
    FocusedFacts(b);
    if IsJump(key) {
      WordMoveRefines(b, key);
    } else if IsCode(key, KEY_PGUP) || IsCode(key, KEY_PGDN) {
      PageMoveRefines(b, key);
    } else if IsCode(key, KEY_HOME) || IsCode(key, KEY_END) {
      EndMoveRefines(b, key);
    } else if key.Ctrl? && KEY_UP <= key.code <= KEY_RIGHT {
      StepMoveRefines(b, key);
    }
  }

  /** Keys handled by `Navigate`. */
  lemma NavigateRefines(b: Box, key: KeyUser)
    requires Focused(b) && Countable(b, key)
    ensures F.Within(Flatten(b))
    ensures var n := Navigate(b, key);
            var t := F.Target(Flatten(b), RulesOf(b), key);
            && (t.None? ==> n.box == b && !n.done)
            && (t.Some? && HasShift(key) ==>
                  Flatten(n.box) == Flatten(b).(front := t.value) && (n.done <==> t.value != Abs(b.front)))
            && (t.Some? && !HasShift(key) ==>
                  Flatten(n.box) == Flatten(b).(front := t.value, back := t.value) && n.done)
    ensures Kept(b, Navigate(b, key).box)
  {
    MoveRefines(b, key);
    FrontMoveGood(b, key);
  }

  predicate Unselected(b: Box) {
    Abs(b.front) == Abs(b.back)
  }

  lemma BackspaceRefines(b: Box)
    requires Focused(b) && Unselected(b)
    ensures var at := Abs(b.front); var h := Backspace(b);
            && at <= |b.work|
            && (h.done <==> at > 0)
            && (at == 0 ==> h.box == b)
            && (at > 0 ==> Flatten(h.box) == Flatten(b).(text := b.work[..at - 1] + b.work[at..],
                                                         front := at - 1, back := at - 1, dirty := true))
            && (at > 0 ==> h.box.front.offset == if HiddenBelow(b.front) then Dec(b.front).offset
                                                 else Max(b.front.offset - 1, 0))
            && Kept(b, h.box)
  {
    FocusedFacts(b);
    PrevEraseLaw(b.front);
    AbsInRange(PrevErase(b.front));
  }

  lemma DeleteRefines(b: Box)
    requires Focused(b) && Unselected(b)
    ensures var at := Abs(b.front); var h := Delete(b);
            && at <= |b.work|
            && (h.done <==> at < |b.work|)
            && (at == |b.work| ==> h.box == b)
            && (at < |b.work| ==> Flatten(h.box) == Flatten(b).(text := b.work[..at] + b.work[at + 1..],
                                                                back := at, dirty := true))
            && (at < |b.work| ==> h.box.front.offset == if HiddenBelow(b.front) then b.front.offset
                                                        else Max(b.front.offset - 1, 0))
            && Kept(b, h.box)
  {
    FocusedFacts(b);
    CurrEraseLaw(b.front);
  }

  lemma TypeRefines(b: Box, ch: char)
    requires Focused(b) && Unselected(b)
    ensures var at := Abs(b.front); var h := Type(b, ch);
            && at <= |b.work|
            && (h.done <==> (b.cfg.numbersOnly ==> IsDigit(ch)) && |b.work| < b.cfg.lenMax)
            && (!h.done ==> h.box == b)
            && (h.done ==> Flatten(h.box) == Flatten(b).(text := b.work[..at] + [ch] + b.work[at..],
                                                         front := at + 1, back := at + 1, dirty := true))
            && (h.done ==> h.box.front.offset == b.front.offset
                             + if b.front.cursor >= b.front.ubound && b.front.offset + b.front.win <= b.front.size
                               then 1 else 0)
            && Kept(b, h.box)
  {
    FocusedFacts(b);
    if |b.work| < b.cfg.lenMax {
      InsertLaw(b.front);
    }
  }

  lemma TypeRejects(b: Box, ch: char)
    requires Focused(b) && b.cfg.numbersOnly && !IsDigit(ch)
    ensures Type(b, ch) == Handled(b, false)
  {
  }

  /** Whether a key goes through `SelectionReplace`, and if so, whether that keeps its place. */
  predicate Aligned(b: Box, key: KeyUser)
    requires Focused(b)
  {
    F.Replaces(Flatten(b), RulesOf(b), key) ==> KeepsPlace(b)
  }

  predicate Refines(b: Box, key: KeyUser)
    requires Focused(b) && Countable(b, key) && F.Within(Flatten(b))
  {
    Flatten(KeyProcess(b, key).box) == F.Press(Flatten(b), RulesOf(b), key).flat
  }

  predicate SameReply(b: Box, key: KeyUser)
    requires Focused(b) && Countable(b, key) && F.Within(Flatten(b))
  {
    KeyProcess(b, key).done == F.Press(Flatten(b), RulesOf(b), key).done
  }

  lemma ReplacingStep(b: Box, key: KeyUser)
    requires Focused(b) && Countable(b, key) && F.Replaces(Flatten(b), RulesOf(b), key)
    ensures var q := b.(dirty := false);
            var c := if IsCode(key, KEY_CTRL_X) then ClipboardSet(q) else q;
            Focused(c) && KeyProcess(b, key) == Dirty(SelectionReplace(c, if key.Print? then [key.ch] else ""))
  {
    hide SelectionReplace, FrontMove, SizeSet, Insert, Framed, Usable;
    FocusedFacts(b);
    if !IsCode(key, KEY_CTRL_X) {
      NavigateRefines(b.(dirty := false), key);
    }
  }

  lemma PressReplaces(f: F.Flat, r: F.Rules, key: KeyUser)
    requires F.Within(f) && F.Replaces(f, r, key)
    ensures var c := if IsCode(key, KEY_CTRL_X) then f.(clip := F.Selected(f), dirty := false) else f.(dirty := false);
            F.Press(f, r, key)
              == F.Reply(F.Replace(c, if key.Print? then [key.ch] else "", r).(dirty := true), true)
  {
  }

  lemma ReplacingKey(b: Box, key: KeyUser)
    requires Focused(b) && Countable(b, key) && F.Replaces(Flatten(b), RulesOf(b), key)
    ensures F.Within(Flatten(b))
    ensures SameReply(b, key)
    ensures HasRoom(b) ==> (Refines(b, key) <==> KeepsPlace(b)) && |KeyProcess(b, key).box.work| <= b.cfg.lenMax
    ensures Kept(b, KeyProcess(b, key).box) <==> HasRoom(b)
    ensures Good(KeyProcess(b, key).box) <==> HasRoom(b)
  {
    hide KeyProcess, F.Press, F.Replace, SelectionReplace, Framed, Usable;
    FocusedFacts(b);
    ReplacingStep(b, key);
    PressReplaces(Flatten(b), RulesOf(b), key);
    var q := b.(dirty := false);
    var c := if IsCode(key, KEY_CTRL_X) then ClipboardSet(q) else q;
    var ins := if key.Print? then [key.ch] else "";
    FocusedFacts(c);
    assert HasRoom(c) == HasRoom(b);
    ReplaceNeedsRoom(c, ins);
    if HasRoom(c) {
      ReplaceKeepsOrder(c, ins);
      ReplaceRefines(c, ins);
    }
    var r := SelectionReplace(c, ins);
    assert Flatten(Dirty(r).box) == Flatten(r).(dirty := true);
    assert !Flatten(r).dirty && !F.Replace(Flatten(c), ins, RulesOf(b)).dirty;
  }

  lemma EditingKey(b: Box, key: KeyUser)
    requires Focused(b) && Countable(b, key) && !F.Replaces(Flatten(b), RulesOf(b), key)
    requires F.Within(Flatten(b)) && F.Target(Flatten(b), RulesOf(b), key).None?
    requires !IsCode(key, KEY_CTRL_A) && !IsCode(key, KEY_CTRL_C)
    ensures Refines(b, key) && SameReply(b, key)
    ensures Kept(b, KeyProcess(b, key).box)
  {
    hide SelectionReplace, FrontMove, SizeSet, Insert, Framed, Usable, Backspace, Delete, Type;
    var q := b.(dirty := false);
    NavigateRefines(q, key);
    FocusedFacts(q);
    if IsBackspace(key) {
      BackspaceRefines(q);
    } else if IsCode(key, KEY_DELETE) {
      DeleteRefines(q);
    } else if key.Print? && b.cfg.numbersOnly && !IsDigit(key.ch) {
      TypeRejects(q, key.ch);
    } else if key.Print? {
      TypeRefines(q, key.ch);
    }
  }

  lemma PressMoves(f: F.Flat, r: F.Rules, key: KeyUser)
    requires F.Within(f) && F.Target(f, r, key).Some?
    ensures F.Target(f.(dirty := false), r, key) == F.Target(f, r, key)
    ensures var to := F.Target(f, r, key).value;
            F.Press(f, r, key)
              == if HasShift(key) then F.Reply(f.(front := to, dirty := to != f.front), to != f.front)
                 else F.Reply(f.(front := to, back := to, dirty := true), true)
  {
  }

  lemma MovingStep(b: Box, key: KeyUser)
    requires Focused(b) && Countable(b, key) && FrontMove(b.(dirty := false), key).done
    ensures var n := Navigate(b.(dirty := false), key);
            KeyProcess(b, key) == if n.done then Dirty(n.box) else n
  {
    hide SelectionReplace, Backspace, Delete, Type, ClipboardSet, SizeSet, Usable;
    NavigateGood(b.(dirty := false), key);
  }

  lemma MovingKey(b: Box, key: KeyUser)
    requires Focused(b) && Countable(b, key)
    requires F.Within(Flatten(b)) && F.Target(Flatten(b), RulesOf(b), key).Some?
    ensures Refines(b, key) && SameReply(b, key)
    ensures Kept(b, KeyProcess(b, key).box)
  {
    hide KeyProcess, FrontMove, F.Target, F.Press, Framed, Usable;
    var q := b.(dirty := false);
    PressMoves(Flatten(b), RulesOf(b), key);
    MoveRefines(q, key);
    MovingStep(b, key);
    NavigateRefines(q, key);
  }

  lemma SelectingKey(b: Box, key: KeyUser)
    requires Focused(b) && (IsCode(key, KEY_CTRL_A) || IsCode(key, KEY_CTRL_C))
    ensures F.Within(Flatten(b))
    ensures Refines(b, key) && SameReply(b, key)
    ensures Kept(b, KeyProcess(b, key).box)
  {
    FocusedFacts(b);
    ResetLaw(b.back);
    CursorEndLaw(b.front);
  }

  /** A key that replaces the selection needs room. */
  predicate FitsKey(b: Box, key: KeyUser)
    requires Focused(b)
  {
    F.Replaces(Flatten(b), RulesOf(b), key) ==> HasRoom(b)
  }

  /** One key keeps the box in order exactly when it fits, and then does what the flat editor does
      exactly when it is aligned. The result flag is the flat editor's in any case. */
  lemma KeyRefines(b: Box, key: KeyUser)
    requires Focused(b) && Countable(b, key)
    ensures F.Within(Flatten(b)) && SameReply(b, key)
    ensures FitsKey(b, key) ==> (Refines(b, key) <==> Aligned(b, key))
    ensures Kept(b, KeyProcess(b, key).box) <==> FitsKey(b, key)
    ensures Good(KeyProcess(b, key).box) <==> FitsKey(b, key)
    ensures FitsKey(b, key) ==> |KeyProcess(b, key).box.work| <= Max(|b.work|, b.cfg.lenMax)
  {
    hide KeyProcess, F.Press, SelectionReplace, Framed, Usable;
    FocusedFacts(b);
    if F.Replaces(Flatten(b), RulesOf(b), key) {
      ReplacingKey(b, key);
    } else if IsCode(key, KEY_CTRL_A) || IsCode(key, KEY_CTRL_C) {
      SelectingKey(b, key);
    } else if F.Target(Flatten(b), RulesOf(b), key).Some? {
      MovingKey(b, key);
    } else {
      EditingKey(b, key);
    }
  }
}
