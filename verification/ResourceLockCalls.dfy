/** Calls without interference, the loops of the two functions, and what a repeated name does. */
module ResourceLockCalls {
  import opened ResourceLocks
  import opened Results

  // ---- undisturbed calls as runs

  function Times(step: Step, n: nat): (steps: seq<Step>)
    ensures |steps| == n && forall k :: 0 <= k < n ==> steps[k] == step
  {
    seq(n, _ => step)
  }

  lemma TimesFront(step: Step, n: nat)
    requires n > 0
    ensures Times(step, n)[0] == step && Times(step, n)[1..] == Times(step, n - 1)
  {
  }

  lemma {:induction false} RunConcat(s: Sys, a: seq<Step>, b: seq<Step>)
    requires CanRun(s, a) && CanRun(RunOf(s, a), b)
    ensures CanRun(s, a + b) && RunOf(s, a + b) == RunOf(RunOf(s, a), b)
    decreases |a|
  {
    hide Can, Do;
    if a == [] {
      assert a + b == b;
    } else {
      assert (a + b)[1..] == a[1..] + b;
      RunConcat(Do(s, a[0]), a[1..], b);
    }
  }

  function With(s: Sys, p: nat, c: Caller): Sys
    requires p < |s.callers|
  {
    s.(callers := s.callers[p := c])
  }

  lemma TailNames(names: seq<string>, k: nat)
    requires k < |names|
    ensures Names(names[k..]) == {names[k]} + Names(names[k + 1..])
  {
    assert names[k..] == [names[k]] + names[k + 1..];
  }

  lemma {:induction false} ChecksAlone(s: Sys, p: nat, k: nat)
    requires p < |s.callers| && s.callers[p].pc == Checking(k) && k <= |s.callers[p].names|
    requires Names(s.callers[p].names[k..]) !! s.flags
    ensures var c := s.callers[p];
            var steps := Times(Check(p), |c.names| - k + 1);
            && CanRun(s, steps)
            && RunOf(s, steps) == With(s, p, c.(pc := Creating(0), absent := c.absent + Names(c.names[k..])))
    decreases |s.callers[p].names| - k
  {
    hide Times, Names;
    var c := s.callers[p];
    var n := |c.names| - k + 1;
    var t := Do(s, Check(p));
    TimesFront(Check(p), n);
    if k == |c.names| {
      assert c.absent + Names(c.names[k..]) == c.absent;
      assert Times(Check(p), n)[1..] == [];
    } else {
      TailNames(c.names, k);
      ChecksAlone(t, p, k + 1);
      assert c.absent + {c.names[k]} + Names(c.names[k + 1..]) == c.absent + Names(c.names[k..]);
    }
  }

  lemma {:induction false} CreatesAlone(s: Sys, p: nat, k: nat)
    requires p < |s.callers| && s.callers[p].pc == Creating(k) && k <= |s.callers[p].names|
    ensures var c := s.callers[p];
            var steps := Times(Create(p), |c.names| - k + 1);
            var made := Names(c.names[k..]);
            && CanRun(s, steps)
            && RunOf(s, steps)
               == With(s, p, c.(pc := Idle, created := c.created + made, result := Some(Positive),
                                locks := c.locks + c.names)).(flock := None, flags := s.flags + made)
    decreases |s.callers[p].names| - k
  {
    hide Times, Names;
    var c := s.callers[p];
    var n := |c.names| - k + 1;
    var t := Do(s, Create(p));
    TimesFront(Create(p), n);
    if k == |c.names| {
      assert s.flags + Names(c.names[k..]) == s.flags && c.created + Names(c.names[k..]) == c.created;
      assert Times(Create(p), n)[1..] == [];
    } else {
      TailNames(c.names, k);
      CreatesAlone(t, p, k + 1);
      assert s.flags + {c.names[k]} + Names(c.names[k + 1..]) == s.flags + Names(c.names[k..]);
      assert c.created + {c.names[k]} + Names(c.names[k + 1..]) == c.created + Names(c.names[k..]);
    }
  }

  function LockSteps(p: nat, names: seq<string>): seq<Step> {
    [TryLock(p, names)] + (Times(Check(p), |names| + 1) + Times(Create(p), |names| + 1))
  }

  predicate Free(s: Sys, p: nat, names: seq<string>) {
    p < |s.callers| && s.callers[p].pc.Idle? && s.flock.None? && Names(names) !! s.flags
  }

  /** An undisturbed call on absent flags takes them all. */
  lemma LockAlone(s: Sys, p: nat, names: seq<string>)
    requires Free(s, p, names)
    ensures CanRun(s, LockSteps(p, names))
    ensures RunOf(s, LockSteps(p, names))
         == With(s, p, Caller(Idle, names, Names(names), Names(names), Some(Positive), s.callers[p].locks + names))
            .(flags := s.flags + Names(names))
  {
    hide Times;
    var t := Do(s, TryLock(p, names));
    var steps := Times(Check(p), |names| + 1) + Times(Create(p), |names| + 1);
    LockedAlone(t, p);
    assert LockSteps(p, names)[1..] == steps;
    var done := Caller(Idle, names, Names(names), Names(names), Some(Positive), s.callers[p].locks + names);
    assert t.callers[p := done] == s.callers[p := done];
  }

  lemma LockedAlone(t: Sys, p: nat)
    requires p < |t.callers| && Names(t.callers[p].names) !! t.flags
    requires t.callers[p].pc == Checking(0) && t.callers[p].absent == {} == t.callers[p].created
    ensures var c := t.callers[p];
            var steps := Times(Check(p), |c.names| + 1) + Times(Create(p), |c.names| + 1);
            && CanRun(t, steps)
            && RunOf(t, steps)
               == With(t, p, Caller(Idle, c.names, Names(c.names), Names(c.names), Some(Positive), c.locks + c.names))
                  .(flock := None, flags := t.flags + Names(c.names))
  {
    hide Times, Do, Can;
    var c := t.callers[p];
    assert c.names[0..] == c.names;
    ChecksAlone(t, p, 0);
    var checks, creates := Times(Check(p), |c.names| + 1), Times(Create(p), |c.names| + 1);
    var u := RunOf(t, checks);
    CreatesAlone(u, p, 0);
    RunConcat(t, checks, creates);
    assert {} + Names(c.names) == Names(c.names);
  }

  lemma {:induction false} ChecksFind(s: Sys, p: nat, k: nat, i: nat)
    requires p < |s.callers| && s.callers[p].pc == Checking(k) && k <= i < |s.callers[p].names|
    requires s.callers[p].names[i] in s.flags && Names(s.callers[p].names[k..i]) !! s.flags
    ensures var c := s.callers[p];
            var steps := Times(Check(p), i - k + 1);
            && CanRun(s, steps)
            && RunOf(s, steps) == With(s, p, c.(pc := Refusing, absent := c.absent + Names(c.names[k..i])))
    decreases i - k
  {
    var c := s.callers[p];
    var t := Do(s, Check(p));
    TimesFront(Check(p), i - k + 1);
    if k == i {
      assert c.absent + Names(c.names[k..i]) == c.absent;
      assert Times(Check(p), 1)[1..] == [];
    } else {
      assert c.names[k..i] == [c.names[k]] + c.names[k + 1..i];
      assert c.names[k] in Names(c.names[k..i]);
      assert t.callers[p].names[k + 1..i] == c.names[k + 1..i];
      ChecksFind(t, p, k + 1, i);
      assert c.absent + {c.names[k]} + Names(c.names[k + 1..i]) == c.absent + Names(c.names[k..i]);
    }
  }

  lemma RefusedTail(u: Sys, p: nat)
    requires p < |u.callers| && u.callers[p].pc.Refusing?
    ensures CanRun(u, [Refuse(p)])
    ensures RunOf(u, [Refuse(p)]) == With(u, p, u.callers[p].(pc := Idle, result := Some(Pending))).(flock := None)
  {
    assert [Refuse(p)][1..] == [];
  }

  function RefusedSteps(p: nat, names: seq<string>, i: nat): seq<Step> {
    [TryLock(p, names)] + (Times(Check(p), i + 1) + [Refuse(p)])
  }

  /** An undisturbed call that finds its i-th flag first returns Pending and changes no flag. */
  lemma RefusedAlone(s: Sys, p: nat, names: seq<string>, i: nat)
    requires p < |s.callers| && s.callers[p].pc.Idle? && s.flock.None?
    requires i < |names| && names[i] in s.flags && Names(names[..i]) !! s.flags
    ensures CanRun(s, RefusedSteps(p, names, i))
    ensures RunOf(s, RefusedSteps(p, names, i))
         == With(s, p, Caller(Idle, names, Names(names[..i]), {}, Some(Pending), s.callers[p].locks))
  {
    var t := Do(s, TryLock(p, names));
    assert names[0..i] == names[..i] && {} + Names(names[..i]) == Names(names[..i]);
    ChecksFind(t, p, 0, i);
    var checks := Times(Check(p), i + 1);
    var u := RunOf(t, checks);
    RefusedTail(u, p);
    RunConcat(t, checks, [Refuse(p)]);
    hide Do, Can, Times;
    assert RefusedSteps(p, names, i)[1..] == checks + [Refuse(p)];
    var done := Caller(Idle, names, Names(names[..i]), {}, Some(Pending), s.callers[p].locks);
    assert RunOf(u, [Refuse(p)]).callers == s.callers[p := done];
  }

  // ---- calls while the flock is held

  /** A call that finds the flock held by another, or cannot take it, answers at once and changes
      nothing but its own record. */
  lemma AnsweredAtOnce(s: Sys, p: nat, names: seq<string>)
    requires p < |s.callers| && s.callers[p].pc.Idle?
    ensures s.flock.Some? ==>
              Do(s, TryLock(p, names)) == With(s, p, Caller(Idle, names, {}, {}, Some(Pending), s.callers[p].locks))
    ensures Do(s, FlockError(p, names)) == With(s, p, Caller(Idle, names, {}, {}, Some(Failed(-1)), s.callers[p].locks))
  {
  }

  /** From then on caller p has at most released something, and no call of it was granted. */
  predicate HeldOff(was: Caller, now: Caller) {
    && now.pc.Idle? && Names(now.locks) <= Names(was.locks)
    && (now.result == was.result || now.result == Some(Pending) || now.result == Some(Failed(-1)))
  }

  /** As long as one process is inside, whatever the others call in whatever order, none of them is
      granted anything, and its own record stays. */
  lemma {:induction false} OthersHeldOff(s: Sys, steps: seq<Step>, q: nat)
    requires Inv(s) && q < |s.callers| && s.flock == Some(q) && CanRun(s, steps)
    requires forall k :: 0 <= k < |steps| ==> steps[k].p != q && NoRepeats(steps[k])
    ensures var r := RunOf(s, steps);
            && r.flock == Some(q) && |r.callers| == |s.callers| && r.callers[q] == s.callers[q] && r.flags <= s.flags
            && forall p :: 0 <= p < |s.callers| && p != q ==> HeldOff(s.callers[p], r.callers[p])
    decreases |steps|
  {
    hide CallerOk, Exclusive, Names, Distinct;
    if steps != [] {
      var step := steps[0];
      StepInv(s, step);
      assert HeldOff(s.callers[step.p], Do(s, step).callers[step.p]) by {
        OneHeldOff(s, step);
      }
      OthersHeldOff(Do(s, step), steps[1..], q);
    }
  }

  lemma OneHeldOff(s: Sys, step: Step)
    requires Inv(s) && Can(s, step) && s.flock.Some? && step.p != s.flock.value
    ensures HeldOff(s.callers[step.p], Do(s, step).callers[step.p])
  {
    hide Exclusive;
    assert CallerOk(s.callers[step.p], s.flags);
    if step.Release? {
      RemovedFacts(s.callers[step.p].locks, step.entry);
    }
  }

  // ---- repeated names

  function TwoIdle(): Sys {
    var idle := Caller(Idle, [], {}, {}, None, []);
    Sys({}, None, [idle, idle])
  }

  function BreakingRun(names: seq<string>, j: nat): seq<Step>
    requires j < |names|
  {
    LockSteps(0, names) + ([Release(0, j)] + LockSteps(1, [names[j]]))
  }

  /** A call that repeats a name breaks the exclusion: after the release of one of the two entries
      a second process gets the flag, while the first still lists it. With distinct names
      `MutualExclusion` holds, so distinct names are exactly what the exclusion needs. */
  lemma RepeatBreaks(names: seq<string>, i: nat, j: nat)
    requires i < j < |names| && names[i] == names[j]
    ensures Init(TwoIdle()) && CanRun(TwoIdle(), BreakingRun(names, j))
    ensures var r := RunOf(TwoIdle(), BreakingRun(names, j));
            |r.callers| == 2 && names[j] in r.callers[0].locks && names[j] in r.callers[1].locks
  {
    hide LockSteps, CanRun, RunOf;
    var s := TwoIdle();
    LockAlone(s, 0, names);
    var t := RunOf(s, LockSteps(0, names));
    ReleasedTwice(t, names, i, j);
    RunConcat(s, LockSteps(0, names), [Release(0, j)] + LockSteps(1, [names[j]]));
  }

  lemma ReleasedTwice(t: Sys, names: seq<string>, i: nat, j: nat)
    requires i < j < |names| && names[i] == names[j]
    requires |t.callers| == 2 && t.callers[0].pc == t.callers[1].pc == Idle && t.flock == None
    requires t.callers[0].locks == names && t.callers[1].locks == [] && t.flags == Names(names)
    ensures var steps := [Release(0, j)] + LockSteps(1, [names[j]]);
            && CanRun(t, steps)
            && var r := RunOf(t, steps);
               |r.callers| == 2 && names[j] in r.callers[0].locks && names[j] in r.callers[1].locks
  {
    hide LockSteps, Names;
    var u := Do(t, Release(0, j));
    assert u.callers[0].locks[i] == names[j];
    assert Free(u, 1, [names[j]]) by {
      OneName(names[j]);
    }
    LockAlone(u, 1, [names[j]]);
    var tail := LockSteps(1, [names[j]]);
    assert ([Release(0, j)] + tail)[1..] == tail;
  }

  lemma OneName(name: string)
    ensures Names([name]) == {name}
  {
  }
}
