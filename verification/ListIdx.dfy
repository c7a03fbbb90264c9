/** The scrolling list cursor: each method does to the fields what `ListIdxState` says. */
module ListIdxClass {
  import opened Words
  import opened Keys
  import opened ListIdxState

  class ListIdx {
    var win: u32
    var size: u32
    var jump: u16
    var cursor: u32
    var offset: u32
    var lbound: u32
    var ubound: u32

    ghost function State(): Idx
      reads this
    {
      Idx(win, size, jump, cursor, offset, lbound, ubound)
    }

    function CursorAbs(): (pos: u32)
      reads this
      ensures pos == ListIdxState.CursorAbs(State())
    {
      Add32(offset, cursor)
    }

    predicate EndReached()
      reads this
      ensures EndReached() <==> ListIdxState.EndReached(State())
    {
      Add32(offset, win) >= size
    }

    constructor (win: u32)
      ensures State() == WinSet(Idx(0, 0, DEFAULT_JUMP, 0, 0, 0, 0), win)
      ensures this.win == win && size == cursor == offset == 0 && jump == 3
    {
      this.win, size, jump := 0, 0, DEFAULT_JUMP;
      cursor, offset, lbound, ubound := 0, 0, 0, 0;
      new;
      SetWin(win);
    }

    method CopyFrom(other: ListIdx)
      modifies this
      ensures State() == old(other.State())
    {
      win, size, jump, cursor, offset := other.win, other.size, other.jump, other.cursor, other.offset;
      lbound, ubound := other.lbound, other.ubound;
    }

    method SetWin(win: u32)
      modifies this
      ensures State() == WinSet(old(State()), win)
    {
      this.win := win;
      CheckSanity();
      var bnd: u32 := win / 2;
      if win % 2 == 0 {
        bnd := Sub32(bnd, 1);
      }
      SetLbound(bnd);
      SetUbound(win / 2);
    }

    method SetSize(size: u32)
      modifies this
      ensures State() == SizeSet(old(State()), size)
    {
      this.size := size;
      CheckSanity();
    }

    method CheckSanity()
      modifies this
      ensures State() == SanityCheck(old(State()))
    {
      var hard: u32 := 0;
      if offset != 0 && Add32(offset, win) > size {
        cursor := Add32(cursor, Sub32(Add32(offset, win), size));
        offset := if size > win then size - win else 0;
      }
      if win != 0 && size != 0 {
        hard := (if win < size then win else size) - 1;
      }
      if cursor > hard {
        cursor := hard;
      }
    }

    method SetSizeJump(jump: u16)
      modifies this
      ensures State() == SizeJumpSet(old(State()), jump)
    {
      this.jump := if jump < 1 then 1 else jump;
    }

    method SetLbound(bnd: u32)
      modifies this`lbound
      ensures State() == LboundSet(old(State()), bnd)
    {
      if bnd < win {
        lbound := bnd;
      } else if win != 0 {
        lbound := win - 1;
      } else {
        lbound := 0;
      }
    }

    method SetUbound(bnd: u32)
      modifies this`ubound
      ensures State() == UboundSet(old(State()), bnd)
    {
      if bnd < win {
        ubound := bnd;
      } else if win != 0 {
        ubound := win - 1;
      } else {
        ubound := 0;
      }
    }

    method SetCursorBound(bnd: u32)
      modifies this
      ensures State() == CursorBoundSet(old(State()), bnd)
    {
      if win == 0 {
        return;
      }
      var b := bnd;
      if win < Add32(b, 1) {
        b := win - 1;
      }
      SetLbound(b);
      SetUbound(Sub32(win - 1, b));
    }

    method SetTextMode()
      modifies this
      ensures State() == TextModeSet(old(State()))
    {
      SetLbound(win);
      SetUbound(0);
    }

    method Reset() returns (changed: bool)
      modifies this
      ensures State() == ListIdxState.Reset(old(State()))
      ensures changed <==> State() != old(State())
    {
      changed := cursor != 0 || offset != 0;
      cursor := 0;
      offset := 0;
    }

    method SetCursorEnd() returns (changed: bool)
      modifies this
      ensures State() == CursorEndSet(old(State()))
      ensures changed <==> CursorEndMoves(old(State()))
    {
      if win == 0 || size == 0 {
        return false;
      }
      var hard := (if win < size then win else size) - 1;
      changed := cursor != hard || !EndReached();
      cursor := hard;
      offset := if size > win then size - win else 0;
    }

    method IncOffset() returns (changed: bool)
      modifies this
      ensures State() == ListIdxState.IncOffset(old(State()))
      ensures changed <==> State() != old(State())
    {
      if EndReached() {
        return false;
      }
      offset := Add32(offset, 1);
      return true;
    }

    method DecOffset() returns (changed: bool)
      modifies this
      ensures State() == ListIdxState.DecOffset(old(State()))
      ensures changed <==> State() != old(State())
    {
      if offset == 0 {
        return false;
      }
      offset := offset - 1;
      return true;
    }

    method IncCursor() returns (changed: bool)
      modifies this
      ensures State() == ListIdxState.IncCursor(old(State()))
      ensures changed <==> State() != old(State())
    {
      if win == 0 || size == 0 {
        return false;
      }
      var hard := (if win < size then win else size) - 1;
      if cursor == hard {
        return false;
      }
      cursor := Add32(cursor, 1);
      return true;
    }

    method DecCursor() returns (changed: bool)
      modifies this
      ensures State() == ListIdxState.DecCursor(old(State()))
      ensures changed <==> State() != old(State())
    {
      if cursor == 0 {
        return false;
      }
      cursor := cursor - 1;
      return true;
    }

    method Inc() returns (changed: bool)
      modifies this
      ensures State() == ListIdxState.Inc(old(State()))
      ensures changed <==> State() != old(State())
    {
      if win == 0 || size == 0 {
        return false;
      }
      var hard := (if win < size then win else size) - 1;
      if cursor >= ubound && !EndReached() {
        offset := Add32(offset, 1);
      } else if cursor < hard {
        cursor := cursor + 1;
      } else {
        return false;
      }
      return true;
    }

    method Dec() returns (changed: bool)
      modifies this
      ensures State() == ListIdxState.Dec(old(State()))
      ensures changed <==> State() != old(State())
    {
      if cursor <= lbound && offset != 0 {
        offset := offset - 1;
      } else if cursor != 0 {
        cursor := cursor - 1;
      } else {
        return false;
      }
      return true;
    }

    method IncJump() returns (changed: bool)
      modifies this
      ensures State() == IncN(old(State()), old(jump))
      ensures changed <==> IncNMoves(old(State()), old(jump))
    {
      changed := false;
      var i := 0;
      while i < jump
        invariant 0 <= i <= jump == old(jump)
        invariant State() == IncN(old(State()), i)
        invariant changed <==> IncNMoves(old(State()), i)
      {
        var c := Inc();
        changed := changed || c;
        i := i + 1;
      }
    }

    method DecJump() returns (changed: bool)
      modifies this
      ensures State() == DecN(old(State()), old(jump))
      ensures changed <==> DecNMoves(old(State()), old(jump))
    {
      changed := false;
      var i := 0;
      while i < jump
        invariant 0 <= i <= jump == old(jump)
        invariant State() == DecN(old(State()), i)
        invariant changed <==> DecNMoves(old(State()), i)
      {
        var c := Dec();
        changed := changed || c;
        i := i + 1;
      }
    }

    method Insert()
      modifies this
      ensures State() == ListIdxState.Insert(old(State()))
    {
      SetSize(Add32(size, 1));
      var _ := Inc();
    }

    method CurrErase() returns (changed: bool)
      modifies this
      ensures State() == ListIdxState.CurrErase(old(State()))
      ensures changed <==> old(size) != 0
    {
      if size == 0 {
        return false;
      }
      if EndReached() && size > win {
        var _ := DecOffset();
        var _ := IncCursor();
      }
      SetSize(size - 1);
      return true;
    }

    method PrevErase() returns (changed: bool)
      modifies this
      ensures State() == ListIdxState.PrevErase(old(State()))
      ensures changed <==> old(CursorAbs()) != 0
    {
      if CursorAbs() == 0 {
        return false;
      }
      if EndReached() && size > win {
        var _ := DecOffset();
      } else {
        var _ := Dec();
      }
      SetSize(Sub32(size, 1));
      return true;
    }

    method KeyProcess(key: KeyUser, disabledKeys: string) returns (changed: bool)
      modifies this
      ensures KeyMove(State(), changed) == ListKey(old(State()), key, disabledKeys)
    {
      hide ListIdxState.Inc, ListIdxState.Dec, ListIdxState.Reset, CursorEndSet, CursorEndMoves;
      var keyCmp := key;
      if IsCode(keyCmp, KEY_PGUP) {
        keyCmp := Print('K', false, false);
      }
      if IsCode(keyCmp, KEY_PGDN) {
        keyCmp := Print('J', false, false);
      }
      var disabled := false;
      var i := 0;
      while i < |disabledKeys|
        invariant 0 <= i <= |disabledKeys| && !disabled
        invariant forall k :: 0 <= k < i ==> !IsChar(keyCmp, disabledKeys[k])
      {
        if IsChar(keyCmp, disabledKeys[i]) {
          disabled := true;
          break;
        }
        i := i + 1;
      }
      if IsDown(key) && !disabled {
        changed := Inc();
      } else if IsUp(key) && !disabled {
        changed := Dec();
      } else if IsDownJump(key) && !disabled {
        changed := IncJump();
      } else if IsUpJump(key) && !disabled {
        changed := DecJump();
      } else if IsHome(key) && !disabled {
        changed := Reset();
      } else if IsEnd(key) && !disabled {
        changed := SetCursorEnd();
      } else {
        changed := false;
      }
    }
  }
}
