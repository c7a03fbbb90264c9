/** `ListIdx` is a clamped integer seen through a scrolling window. */
module ListIdxLaws {
  import opened Words
  import opened Keys
  import opened ListIdxState

  /** The window lies inside the list and the cursor inside the window. */
  predicate Ok(i: Idx) {
    && (i.offset == 0 || i.offset + i.win <= i.size)
    && i.cursor <= HardUbound(i)
  }

  /** Sizes for which no 32-bit operation wraps. */
  predicate Small(i: Idx) {
    i.win < 0x8000_0000 && i.size < 0x8000_0000
  }

  /** A list with a visible window whose bounds are cells of that window. */
  predicate Usable(i: Idx) {
    Ok(i) && Small(i) && i.lbound < i.win && i.ubound < i.win
  }

  /** The cursor position without the window: what a caller sees. */
  function Abs(i: Idx): nat {
    i.offset + i.cursor
  }

  /** Greatest position in a list of n entries; an empty list has position 0. */
  function Last(n: nat): nat {
    if n == 0 then 0 else n - 1
  }

  /** The scroll margins: a hidden part on either side keeps the cursor off that edge. */
  predicate Margins(i: Idx) {
    && (i.offset > 0 ==> i.cursor >= i.lbound)
    && (i.offset + i.win < i.size ==> i.cursor <= i.ubound)
  }

  predicate BoundsOrdered(i: Idx) {
    i.lbound <= i.ubound
  }

  /** A value that satisfies the margins, the invariants and ordered bounds. */
  predicate Framed(i: Idx) {
    Usable(i) && BoundsOrdered(i) && Margins(i)
  }

  predicate SameShape(i: Idx, j: Idx) {
    j.win == i.win && j.jump == i.jump && j.lbound == i.lbound && j.ubound == i.ubound
  }

  // ---- positions

  lemma AbsInRange(i: Idx)
    requires Usable(i)
    ensures CursorAbs(i) == Abs(i) <= Last(i.size)
    ensures EndReached(i) <==> i.offset + i.win >= i.size
    ensures i.size <= i.win ==> i.offset == 0
  {
  }

  lemma IncLaw(i: Idx)
    requires Usable(i)
    ensures Usable(Inc(i)) && SameShape(i, Inc(i)) && Inc(i).size == i.size
    ensures Abs(Inc(i)) == Min(Abs(i) + 1, Last(i.size))
    ensures Inc(i) != i <==> Abs(Inc(i)) != Abs(i)
    ensures Framed(i) ==> Framed(Inc(i))
  {
  }

  lemma DecLaw(i: Idx)
    requires Usable(i)
    ensures Usable(Dec(i)) && SameShape(i, Dec(i)) && Dec(i).size == i.size
    ensures Abs(Dec(i)) == Max(Abs(i) - 1, 0)
    ensures Dec(i) != i <==> Abs(Dec(i)) != Abs(i)
    ensures Framed(i) ==> Framed(Dec(i))
  {
  }

  lemma {:induction false} IncNLaw(i: Idx, n: nat)
    requires Usable(i)
    ensures Usable(IncN(i, n)) && SameShape(i, IncN(i, n)) && IncN(i, n).size == i.size
    ensures Abs(IncN(i, n)) == Min(Abs(i) + n, Last(i.size))
    ensures IncNMoves(i, n) <==> Abs(IncN(i, n)) != Abs(i)
    ensures Framed(i) ==> Framed(IncN(i, n))
  {
    AbsInRange(i);
    if n != 0 {
      IncNLaw(i, n - 1);
      IncLaw(IncN(i, n - 1));
    }
  }

  lemma {:induction false} DecNLaw(i: Idx, n: nat)
    requires Usable(i)
    ensures Usable(DecN(i, n)) && SameShape(i, DecN(i, n)) && DecN(i, n).size == i.size
    ensures Abs(DecN(i, n)) == Max(Abs(i) - n, 0)
    ensures DecNMoves(i, n) <==> Abs(DecN(i, n)) != Abs(i)
    ensures Framed(i) ==> Framed(DecN(i, n))
  {
    if n != 0 {
      DecNLaw(i, n - 1);
      DecLaw(DecN(i, n - 1));
    }
  }

  lemma ResetLaw(i: Idx)
    requires Usable(i)
    ensures Usable(Reset(i)) && SameShape(i, Reset(i)) && Reset(i).size == i.size
    ensures Abs(Reset(i)) == 0
    ensures Reset(i) != i <==> Abs(i) != 0
    ensures Framed(i) ==> Framed(Reset(i))
  {
  }

  /** The end of the list is shown and the cursor is on it, whatever the margins were before. */
  lemma CursorEndLaw(i: Idx)
    requires Usable(i)
    ensures var j := CursorEndSet(i);
            && Usable(j) && SameShape(i, j) && j.size == i.size
            && Abs(j) == Last(i.size)
            && (CursorEndMoves(i) <==> Abs(j) != Abs(i))
            && (i.size != 0 && BoundsOrdered(i) ==> Framed(j))
  {
  }

  // ---- keys

  /** The characters and codes of `keyProcess`, and the characters that switch them off. */
  predicate DownKey(key: KeyUser) { key == Print('j', HasShift(key), HasCtrl(key)) || IsCode(key, KEY_DOWN) }

  predicate UpKey(key: KeyUser) { key == Print('k', HasShift(key), HasCtrl(key)) || IsCode(key, KEY_UP) }

  predicate PageDownKey(key: KeyUser) { key == Print('J', HasShift(key), HasCtrl(key)) || IsCode(key, KEY_PGDN) }

  predicate PageUpKey(key: KeyUser) { key == Print('K', HasShift(key), HasCtrl(key)) || IsCode(key, KEY_PGUP) }

  predicate HomeKey(key: KeyUser) { key == Print('g', HasShift(key), HasCtrl(key)) || IsCode(key, KEY_HOME) }

  predicate EndKey(key: KeyUser) { key == Print('G', HasShift(key), HasCtrl(key)) || IsCode(key, KEY_END) }

  /** Where a key sends the position: one or a page down or up, to the front or to the end, clamped to
      the list. A listed character switches off its own key; 'J' and 'K' switch off the page keys as
      well. The answer is whether the position changed. */
  lemma ListKeyLaw(i: Idx, key: KeyUser, disabled: string)
    requires Usable(i)
    ensures var m := ListKey(i, key, disabled);
            var off := || (exists ch :: ch in disabled && key == Print(ch, HasShift(key), HasCtrl(key)))
                       || (IsCode(key, KEY_PGDN) && 'J' in disabled) || (IsCode(key, KEY_PGUP) && 'K' in disabled);
            && Usable(m.idx) && SameShape(i, m.idx) && m.idx.size == i.size && (Framed(i) ==> Framed(m.idx))
            && Abs(m.idx) == (if off then Abs(i)
                              else if DownKey(key) then Min(Abs(i) + 1, Last(i.size))
                              else if UpKey(key) then Max(Abs(i) - 1, 0)
                              else if PageDownKey(key) then Min(Abs(i) + i.jump, Last(i.size))
                              else if PageUpKey(key) then Max(Abs(i) - i.jump, 0)
                              else if HomeKey(key) then 0
                              else if EndKey(key) then Last(i.size)
                              else Abs(i))
            && (m.changed <==> Abs(m.idx) != Abs(i))
  {
    hide Usable, Framed, Inc, Dec, IncN, DecN, IncNMoves, DecNMoves, Reset, CursorEndSet, CursorEndMoves, Abs;
    IncLaw(i);
    DecLaw(i);
    IncNLaw(i, i.jump);
    DecNLaw(i, i.jump);
    ResetLaw(i);
    CursorEndLaw(i);
    EndMargins(i);
  }

  /** Going to the end keeps margins that hold. */
  lemma EndMargins(i: Idx)
    requires Usable(i)
    ensures Framed(i) ==> Framed(CursorEndSet(i))
  {
  }

  /** A page is never shorter than one entry. */
  lemma SizeJumpLaw(i: Idx, jump: u16)
    requires Usable(i)
    ensures var j := SizeJumpSet(i, jump);
            && j == i.(jump := Max(jump, 1))
            && Abs(IncN(j, j.jump)) == Min(Abs(i) + Max(jump, 1), Last(i.size))
            && Abs(DecN(j, j.jump)) == Max(Abs(i) - Max(jump, 1), 0)
  {
    var j := SizeJumpSet(i, jump);
    IncNLaw(j, j.jump);
    DecNLaw(j, j.jump);
  }

  // ---- sizes

  /** Where the cursor goes when the list gets n entries. */
  function Resized(i: Idx, n: nat): nat {
    if i.offset == 0 || n >= i.win then Min(Abs(i), Last(n))
    else Min(Abs(i) + (i.win - n), Last(n))
  }

  /** The position is only clamped, except that a scrolled window that becomes
      larger than its list drags the cursor towards the end. */
  lemma ResizeLaw(i: Idx, n: nat)
    requires Usable(i) && n < 0x8000_0000
    ensures var j := SizeSet(i, n);
            && Usable(j) && SameShape(i, j) && j.size == n
            && Abs(j) == Resized(i, n) && j.offset == Min(i.offset, Max(n - i.win, 0))
            && (n <= i.size && Framed(i) ==> Framed(j))
  {
  }

  /** Exactly when a resize keeps a position that still exists. */
  lemma ResizeKeeps(i: Idx, n: nat)
    requires Usable(i) && Abs(i) < n < 0x8000_0000
    ensures Abs(SizeSet(i, n)) == Abs(i) <==> i.offset == 0 || n >= i.win || Abs(i) == n - 1
  {
    ResizeLaw(i, n);
  }

  lemma InsertLaw(i: Idx)
    requires Usable(i) && i.size + 1 < 0x8000_0000
    ensures var j := Insert(i);
            && Usable(j) && SameShape(i, j) && j.size == i.size + 1
            && Abs(j) == (if i.size == 0 then 0 else Abs(i) + 1)
            && j.offset == i.offset + (if i.cursor >= i.ubound && i.offset + i.win <= i.size then 1 else 0)
            && (Framed(i) ==> Framed(j))
  {
  }

  lemma {:induction false} InsertNLaw(i: Idx, n: nat)
    requires Usable(i) && i.size >= 1 && i.size + n < 0x8000_0000
    ensures var j := InsertN(i, n);
            && Usable(j) && SameShape(i, j) && j.size == i.size + n
            && Abs(j) == Abs(i) + n
            && (Framed(i) ==> Framed(j))
  {
    if n != 0 {
      InsertNLaw(i, n - 1);
      InsertLaw(InsertN(i, n - 1));
    }
  }

  lemma PrevEraseLaw(i: Idx)
    requires Usable(i)
    ensures var j := PrevErase(i);
            && Usable(j) && SameShape(i, j)
            && (if Abs(i) == 0 then j == i else j.size == i.size - 1 && Abs(j) == Abs(i) - 1)
            && (Abs(i) != 0 ==> j.offset == if HiddenBelow(i) then Dec(i).offset else Max(i.offset - 1, 0))
            && (Framed(i) ==> Framed(j))
  {
    AbsInRange(i);
    if Abs(i) != 0 {
      if EndReached(i) && i.size > i.win {
        hide Dec;
        var d := DecOffset(i);
        assert PrevErase(i) == Clamped(d.(size := i.size - 1)) == d.(size := i.size - 1);
      } else {
        hide Dec, SizeSet;
        DecLaw(i);
        ResizeLaw(Dec(i), i.size - 1);
      }
    }
  }

  lemma CurrEraseLaw(i: Idx)
    requires Usable(i)
    ensures var j := CurrErase(i);
            && Usable(j) && SameShape(i, j)
            && (if i.size == 0 then j == i
                else j.size == i.size - 1 && Abs(j) == Min(Abs(i), Last(i.size - 1)))
            && j.offset == (if HiddenBelow(i) then i.offset else Max(i.offset - 1, 0))
            && (Framed(i) ==> Framed(j))
  {
    AbsInRange(i);
    if i.size != 0 {
      hide SizeSet, Inc, Dec;
      if EndReached(i) && i.size > i.win {
        ScrolledBack(i);
        ResizeLaw(IncCursor(DecOffset(i)), i.size - 1);
      } else {
        ResizeLaw(i, i.size - 1);
      }
    }
  }

  /** At the end of a scrolled list the window moves up by one entry under the cursor, which stays on
      its entry unless that is the last one. */
  lemma ScrolledBack(i: Idx)
    requires Usable(i) && EndReached(i) && i.size > i.win
    ensures var j := IncCursor(DecOffset(i));
            && Usable(j) && SameShape(i, j) && j.size == i.size && j.offset + i.win == i.size - 1
            && Abs(j) == Min(Abs(i), i.size - 2)
            && (Framed(i) ==> BoundsOrdered(j) && (j.offset > 0 ==> j.cursor >= j.lbound))
  {
  }

  /** Scrolling by hand: the cursor keeps its cell. Moving it by hand: the window stays. */
  lemma ByHand(i: Idx)
    requires Usable(i)
    ensures IncOffset(i) == if HiddenBelow(i) then i.(offset := i.offset + 1) else i
    ensures DecOffset(i) == i.(offset := Max(i.offset - 1, 0))
    ensures IncCursor(i) == i.(cursor := Min(i.cursor + 1, Max(Min(i.win, i.size) - 1, 0)))
    ensures DecCursor(i) == i.(cursor := Max(i.cursor - 1, 0))
  {
  }

  // ---- windows

  lemma WinSetLaw(i: Idx, win: u32)
    requires Usable(i) && 1 <= win < 0x8000_0000
    ensures var j := WinSet(i, win);
            && Usable(j) && j.win == win && j.size == i.size && j.jump == i.jump
            && BoundsOrdered(j)
            && (win >= 3 ==> 1 <= j.lbound && j.ubound <= win - 2)
            && Abs(j) == (if i.offset == 0 || i.offset + win <= i.size then Min(Abs(i), i.offset + HardUbound(j))
                          else if i.size >= win then Abs(i)
                          else Min(Abs(i) + (win - i.size), Last(i.size)))
  {
  }

  /** Whether the cursor keeps the margins in a window of w cells. */
  predicate KeepsMargins(i: Idx, w: nat) {
    var cell := Min(i.cursor, w - 1);
    if i.offset == 0 then i.size <= w || cell <= w / 2
    else if i.offset + w <= i.size then
      cell >= (w - 1) / 2 && (i.offset + w < i.size ==> cell <= w / 2)
    else i.size <= w || i.cursor + i.offset + w - i.size >= (w - 1) / 2
  }

  /** Exactly when a new window starts with its margins kept. */
  lemma WinSetMargins(i: Idx, win: u32)
    requires Usable(i) && 1 <= win < 0x8000_0000
    ensures Framed(WinSet(i, win)) <==> KeepsMargins(i, win)
  {
    hide Usable;
    WinSetLaw(i, win);
    WinSetCells(i, win);
  }

  /** The words after `WinSet`. */
  lemma WinSetCells(i: Idx, win: u32)
    requires Usable(i) && 1 <= win < 0x8000_0000
    ensures var j := WinSet(i, win);
            && j.lbound == (win - 1) / 2 && j.ubound == win / 2 && j.win == win && j.size == i.size
            && (i.size > win ==>
                  if i.offset == 0 || i.offset + win <= i.size then
                    j.offset == i.offset && j.cursor == Min(i.cursor, win - 1)
                  else
                    j.offset == i.size - win && j.cursor == Min(i.cursor + i.offset + win - i.size, win - 1))
            && (i.size <= win ==> j.offset == 0)
  {
  }

  /** Without a window nothing moves down, but steps up and the reset still do. */
  lemma NoWindow(i: Idx)
    requires i.win == 0
    ensures Inc(i) == i && CursorEndSet(i) == i
    ensures Dec(i) == i <==> i.cursor == 0 == i.offset
    ensures CursorAbs(Reset(i)) == 0
  {
  }

  // ---- scroll bounds

  /** A window below which something is hidden. */
  predicate HiddenBelow(i: Idx) {
    i.offset + i.win < i.size
  }

  /** A lower bound is the last cell, counted from the top and clamped to the window, from which a
      step up scrolls the list instead of moving the cursor in the window. */
  lemma LboundLaw(i: Idx, bnd: u32)
    requires Usable(i)
    ensures var j := LboundSet(i, bnd); var b := Min(bnd, i.win - 1);
            && Usable(j) && j == i.(lbound := j.lbound) && Abs(j) == Abs(i)
            && (Dec(j).offset < j.offset <==> j.offset > 0 && j.cursor <= b)
            && (Dec(j).cursor < j.cursor <==> j.cursor > 0 && (j.offset == 0 || j.cursor > b))
            && (Framed(i) ==> (Framed(j) <==> b <= i.ubound && (i.offset > 0 ==> b <= i.cursor)))
  {
  }

  /** An upper bound is the first cell, clamped to the window, from which a step down scrolls. */
  lemma UboundLaw(i: Idx, bnd: u32)
    requires Usable(i)
    ensures var j := UboundSet(i, bnd); var b := Min(bnd, i.win - 1);
            && Usable(j) && j == i.(ubound := j.ubound) && Abs(j) == Abs(i)
            && (Inc(j).offset > j.offset <==> HiddenBelow(j) && j.cursor >= b)
            && (Inc(j).cursor > j.cursor <==> j.cursor < HardUbound(j) && (!HiddenBelow(j) || j.cursor < b))
            && (Framed(i) ==> (Framed(j) <==> i.lbound <= b && (HiddenBelow(i) ==> i.cursor <= b)))
  {
  }

  const NO_BOUND: u32 := 0xFFFF_FFFF

  /** The same distance from both ends. The bounds are ordered exactly when the two margins fit beside
      each other; the greatest bound is an exception, because one more wraps to 0. */
  lemma CursorBoundLaw(i: Idx, bnd: u32)
    requires Usable(i)
    ensures var j := CursorBoundSet(i, bnd); var b := Min(bnd, i.win - 1);
            && Usable(j) && j == i.(lbound := j.lbound, ubound := j.ubound) && Abs(j) == Abs(i)
            && j.lbound == b
            && (bnd != NO_BOUND ==> j.lbound + j.ubound == i.win - 1)
            && (BoundsOrdered(j) <==> bnd == NO_BOUND || 2 * b <= i.win - 1)
            && (1 <= j.lbound && j.ubound + 2 <= j.win <==> b > 0 && bnd != NO_BOUND)
  {
  }

  /** Both bounds at the far end: as long as something is hidden a step scrolls and the cursor stays
      in its cell. */
  lemma TextModeLaw(i: Idx)
    requires Usable(i)
    ensures var j := TextModeSet(i);
            && Usable(j) && j == i.(lbound := j.lbound, ubound := j.ubound) && Abs(j) == Abs(i)
            && (HiddenBelow(j) <==> Inc(j) == j.(offset := j.offset + 1))
            && (j.offset > 0 <==> Dec(j) != j && Dec(j).cursor == j.cursor)
            && (BoundsOrdered(j) <==> i.win == 1)
  {
  }

  /** With the bounds of a window of three or more cells, no scroll marker hides the cursor. */
  lemma CursorVisible(i: Idx)
    requires Framed(i) && 1 <= i.lbound && i.ubound + 2 <= i.win
    ensures i.offset > 0 ==> i.cursor > 0
    ensures !EndReached(i) ==> i.cursor < i.win - 1
    ensures i.offset <= Abs(i) < i.offset + i.win
  {
  }
}
