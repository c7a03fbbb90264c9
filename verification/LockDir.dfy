/** `sysFlagsIntLock` and `sysFlagsIntUnlock` of one process with their loops. */
module LockDirClass {
  import opened ResourceLocks
  import opened Results

  class UserLocks {
    var entries: seq<string>

    constructor ()
      ensures entries == []
    {
      entries := [];
    }
  }

  // ---- what one unlock call reaches

  /** The entries at even places: the loop erases one and then steps over the next. */
  function Evens(names: seq<string>): seq<string> {
    if names == [] then [] else [names[0]] + (if |names| == 1 then [] else Evens(names[2..]))
  }

  function Odds(names: seq<string>): seq<string> {
    if |names| < 2 then [] else [names[1]] + Odds(names[2..])
  }

  /** Half of a list stays; a list that the iterator does not leave keeps nothing only if it was empty. */
  lemma {:induction false} OddsStay(names: seq<string>)
    ensures |Odds(names)| == |names| / 2
    ensures |names| % 2 == 0 ==> (Odds(names) == [] <==> names == [])
    decreases |names|
  {
    if |names| >= 2 {
      OddsStay(names[2..]);
    }
  }

  /** Which half is which: the first entry is released, the second one stays, and so on. */
  lemma {:induction false} HalvesAt(names: seq<string>)
    ensures |Evens(names)| == (|names| + 1) / 2 && |Odds(names)| == |names| / 2
    ensures forall k :: 0 <= k < |names| ==> names[k] == if k % 2 == 0 then Evens(names)[k / 2] else Odds(names)[k / 2]
    decreases |names|
  {
    if |names| >= 2 {
      HalvesAt(names[2..]);
      forall k | 2 <= k < |names|
        ensures names[k] == if k % 2 == 0 then Evens(names)[k / 2] else Odds(names)[k / 2]
      {
        assert names[k] == names[2..][k - 2] && k / 2 == (k - 2) / 2 + 1;
      }
    }
  }

  /** What is released and what stays is together the whole list. */
  lemma {:induction false} Halves(names: seq<string>)
    ensures multiset(Evens(names)) + multiset(Odds(names)) == multiset(names)
    decreases |names|
  {
    hide Evens, Odds;
    if |names| < 2 {
      ShortHalves(names);
    } else {
      var rest := names[2..];
      Halves(rest);
      HalvesFirst(names);
      FirstTwo(names);
      assert names == names[..2] + rest;
      TwoMore(names[0], names[1], Evens(rest), Odds(rest), names[..2], rest);
    }
  }

  lemma ShortHalves(names: seq<string>)
    requires |names| < 2
    ensures Evens(names) == names && Odds(names) == []
  {
  }

  lemma HalvesFirst(names: seq<string>)
    requires |names| >= 2
    ensures Evens(names) == [names[0]] + Evens(names[2..]) && Odds(names) == [names[1]] + Odds(names[2..])
  {
  }

  lemma FirstTwo(names: seq<string>)
    requires |names| >= 2
    ensures multiset(names[..2]) == multiset{names[0], names[1]}
  {
    hide *;
    assert names[..2] == [names[0], names[1]];
  }

  lemma TwoMore(a: string, b: string, evens: seq<string>, odds: seq<string>, two: seq<string>, rest: seq<string>)
    requires multiset(evens) + multiset(odds) == multiset(rest) && multiset(two) == multiset{a, b}
    ensures multiset([a] + evens) + multiset([b] + odds) == multiset(two + rest)
  {
    hide *;
  }

  lemma Stepped(rest: seq<string>, before: seq<string>)
    requires rest != []
    ensures |rest| == 1 ==> Odds(rest) == [] && Names(Evens(rest)) == {rest[0]}
    ensures |rest| > 1 ==> before + Odds(rest) == before + [rest[1]] + Odds(rest[2..])
    ensures |rest| > 1 ==> Names(Evens(rest)) == {rest[0]} + Names(Evens(rest[2..]))
    ensures Odds([]) == [] && Names(Evens([])) == {}
  {
    var tail := if |rest| > 1 then Evens(rest[2..]) else [];
    assert Evens(rest) == [rest[0]] + tail;
    if |rest| > 1 {
      assert Odds(rest) == [rest[1]] + Odds(rest[2..]);
      assert before + ([rest[1]] + Odds(rest[2..])) == before + [rest[1]] + Odds(rest[2..]);
    }
    hide Evens, Odds, Names;
    FirstName(rest[0], tail);
    NoNames();
  }

  lemma FirstName(name: string, names: seq<string>)
    ensures Names([name] + names) == {name} + Names(names)
  {
  }

  lemma NoNames()
    ensures Names([]) == {} && Evens([]) == [] == Odds([])
  {
  }

  class LockDir {
    var fileOpen: bool                   // the lock file is open
    var flockTaken: bool                 // somebody holds the flock
    var flags: set<string>
    var globalLocks: map<string, nat>    // this process's view: who asked for which flag

    constructor (fileOpen: bool, flags: set<string>)
      ensures this.fileOpen == fileOpen && this.flags == flags && !flockTaken && globalLocks == map[]
    {
      this.fileOpen, this.flags, flockTaken, globalLocks := fileOpen, flags, false, map[];
    }

    /** Positive exactly when the flock is free and every flag is absent; then, and only then,
        flags, list and map change. The flock is as it was in every case. */
    method SysFlagsIntLock(requester: nat, locks: UserLocks?, names: seq<string>, flockFails: bool)
      returns (res: Success)
      modifies this, locks
      ensures flockTaken == old(flockTaken) && fileOpen == old(fileOpen)
      ensures res.Positive? <==>
                fileOpen && locks != null && !flockFails && !flockTaken && Names(names) !! old(flags)
      ensures res.Pending? <==>
                fileOpen && locks != null && !flockFails && (flockTaken || !(Names(names) !! old(flags)))
      ensures res == Failed(-1) || res.Pending? || res.Positive?
      ensures res.Positive? ==> flags == old(flags) + Names(names) && locks.entries == old(locks.entries) + names
      ensures res.Positive? ==> globalLocks == old(globalLocks) + (map n <- names :: requester)
      ensures !res.Positive? ==> flags == old(flags) && (locks != null ==> locks.entries == old(locks.entries))
      ensures !res.Positive? ==> globalLocks == old(globalLocks)
    {
      if !fileOpen || locks == null {
        return Failed(-1);
      }
      // step 1: the file lock
      if flockFails {
        return Failed(-1);
      }
      if flockTaken {
        return Pending;
      }
      flockTaken := true;

      // step 2: all flags available?
      var k := 0;
      while k < |names|
        invariant 0 <= k <= |names|
        invariant Names(names[..k]) !! flags
        invariant flockTaken && flags == old(flags) && fileOpen && locks.entries == old(locks.entries)
        invariant globalLocks == old(globalLocks)
      {
        if names[k] in flags {
          assert names[k] in Names(names);
          flockTaken := false;
          return Pending;
        }
        assert names[..k + 1] == names[..k] + [names[k]];
        k := k + 1;
      }
      assert names[..k] == names;

      // step 3: create all flags
      k := 0;
      while k < |names|
        invariant 0 <= k <= |names|
        invariant flags == old(flags) + Names(names[..k])
        invariant flockTaken && fileOpen && locks.entries == old(locks.entries)
        invariant globalLocks == old(globalLocks)
      {
        flags := flags + {names[k]};
        assert names[..k + 1] == names[..k] + [names[k]];
        k := k + 1;
      }
      assert names[..k] == names;

      // steps 4 and 5: leave the critical section, remember the entries
      flockTaken := false;
      Remember(requester, locks, names);
      return Positive;
    }

    /** Step 5 of `SysFlagsIntLock`. */
    method Remember(requester: nat, locks: UserLocks, names: seq<string>)
      modifies this`globalLocks, locks
      ensures locks.entries == old(locks.entries) + names
      ensures globalLocks == old(globalLocks) + (map n <- names :: requester)
    {
      for k := 0 to |names|
        invariant locks.entries == old(locks.entries) + names[..k]
        invariant globalLocks == old(globalLocks) + (map n <- names[..k] :: requester)
      {
        locks.entries := locks.entries + [names[k]];
        globalLocks := globalLocks[names[k] := requester];
        assert names[..k + 1] == names[..k] + [names[k]];
      }
      assert names[..|names|] == names;
    }

    /** With an odd number of entries the iterator is moved past the end of the list, and what happens
        from there on is undefined. Otherwise the map forgets all entries, but flags and list lose only
        those at even places. So no call on entries releases them all and stays inside the list. */
    method SysFlagsIntUnlock(locks: UserLocks?) returns (pastEnd: bool)
      modifies this`flags, this`globalLocks, locks
      ensures !fileOpen || locks == null ==> flags == old(flags) && globalLocks == old(globalLocks) && !pastEnd
      ensures !fileOpen && locks != null ==> locks.entries == old(locks.entries)
      ensures fileOpen && locks != null ==> (pastEnd <==> |old(locks.entries)| % 2 == 1)
      ensures fileOpen && locks != null && !pastEnd ==>
                && locks.entries == Odds(old(locks.entries))
                && flags == old(flags) - Names(Evens(old(locks.entries)))
                && globalLocks == old(globalLocks) - Names(old(locks.entries))
      ensures fileOpen && locks != null ==> (!pastEnd && locks.entries == [] <==> old(locks.entries) == [])
    {
      pastEnd := false;
      if !fileOpen || locks == null {
        return;
      }
      ForgetGlobals(locks.entries);
      OddsStay(locks.entries);
      pastEnd := RemoveFlags(locks);
    }

    /** The second loop of `SysFlagsIntUnlock`, up to its end or to the step that leaves the list. */
    method RemoveFlags(locks: UserLocks) returns (pastEnd: bool)
      modifies this`flags, locks
      ensures locks.entries == Odds(old(locks.entries))
      ensures flags == old(flags) - Names(Evens(old(locks.entries)))
      ensures pastEnd <==> |old(locks.entries)| % 2 == 1
    {
      hide Odds, Evens, Names;
      NoNames();
      ghost var start := locks.entries;
      pastEnd := false;
      var it := 0;
      while it != |locks.entries|
        invariant 0 <= it <= |locks.entries|
        invariant !pastEnd
        invariant locks.entries[..it] + Odds(locks.entries[it..]) == Odds(start)
        invariant flags - Names(Evens(locks.entries[it..])) == old(flags) - Names(Evens(start))
        invariant |locks.entries| - it == |start| - 2 * it
        decreases |locks.entries| - it
      {
        ghost var rest := locks.entries[it..];
        ghost var before := locks.entries[..it];
        Stepped(rest, before);
        flags := flags - {locks.entries[it]};
        locks.entries := Removed(locks.entries, it);
        assert locks.entries == before + rest[1..];
        if it == |locks.entries| {
          pastEnd := true;
          return;
        }
        it := it + 1;
        assert locks.entries[..it] == before + [rest[1]];
        assert locks.entries[it..] == rest[2..];
      }
    }

    /** The first loop of `SysFlagsIntUnlock`. */
    method ForgetGlobals(entries: seq<string>)
      modifies this`globalLocks
      ensures globalLocks == old(globalLocks) - Names(entries)
    {
      for k := 0 to |entries|
        invariant globalLocks == old(globalLocks) - Names(entries[..k])
      {
        globalLocks := globalLocks - {entries[k]};
        assert entries[..k + 1] == entries[..k] + [entries[k]];
      }
      assert entries[..|entries|] == entries;
    }
  }
}
