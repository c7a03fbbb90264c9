/** Flag files as locks between OS processes. Every participant has its own open file
    description and calls from one thread, so `flock` excludes the others. */
module ResourceLocks {

  import opened Results

  /** Where a participant is inside `sysFlagsIntLock`. */
  datatype Pc =
    | Idle
    | Checking(k: nat)
    | Refusing
    | Creating(k: nat)

  datatype Caller = Caller(
    pc: Pc,
    names: seq<string>,      // requested by the current or latest call
    absent: set<string>,     // seen absent by that call
    created: set<string>,    // created by that call
    result: Option<Success>, // of the latest call, once it has returned
    locks: seq<string>)      // the caller's list of held flags

  datatype Sys = Sys(flags: set<string>, flock: Option<nat>, callers: seq<Caller>)

  datatype Step =
    | TryLock(p: nat, names: seq<string>)
    | FlockError(p: nat, names: seq<string>)
    | Check(p: nat)
    | Refuse(p: nat)
    | Create(p: nat)
    | Release(p: nat, entry: nat)

  function Names(names: seq<string>): (s: set<string>)
    ensures forall n :: n in s <==> n in names
  {
    set n | n in names
  }

  predicate Distinct(names: seq<string>) {
    forall i, j :: 0 <= i < j < |names| ==> names[i] != names[j]
  }

  function Removed(names: seq<string>, i: nat): seq<string>
    requires i < |names|
  {
    names[..i] + names[i + 1..]
  }

  predicate Can(s: Sys, step: Step) {
    && step.p < |s.callers|
    && var c := s.callers[step.p];
       match step
       case TryLock(_, _) => c.pc.Idle?
       case FlockError(_, _) => c.pc.Idle?
       case Check(_) => c.pc.Checking? && c.pc.k <= |c.names|
       case Refuse(_) => c.pc.Refusing?
       case Create(_) => c.pc.Creating? && c.pc.k <= |c.names|
       case Release(_, entry) => c.pc.Idle? && entry < |c.locks|
  }

  function Entered(c: Caller, names: seq<string>, pc: Pc, result: Option<Success>): Caller {
    c.(pc := pc, names := names, absent := {}, created := {}, result := result)
  }

  function Do(s: Sys, step: Step): Sys
    requires Can(s, step)
  {
    var p := step.p;
    var c := s.callers[p];
    match step
    case TryLock(_, names) =>
      if s.flock.None? then
        s.(flock := Some(p), callers := s.callers[p := Entered(c, names, Checking(0), None)])
      else
        s.(callers := s.callers[p := Entered(c, names, Idle, Some(Pending))])
    case FlockError(_, names) =>
      s.(callers := s.callers[p := Entered(c, names, Idle, Some(Failed(-1)))])
    case Check(_) =>
      var k := c.pc.k;
      s.(callers := s.callers[p :=
        if k == |c.names| then c.(pc := Creating(0))
        else if c.names[k] in s.flags then c.(pc := Refusing)
        else c.(pc := Checking(k + 1), absent := c.absent + {c.names[k]})])
    case Refuse(_) =>
      s.(flock := None, callers := s.callers[p := c.(pc := Idle, result := Some(Pending))])
    case Create(_) =>
      var k := c.pc.k;
      if k == |c.names| then
        s.(flock := None,
           callers := s.callers[p := c.(pc := Idle, result := Some(Positive), locks := c.locks + c.names)])
      else
        s.(flags := s.flags + {c.names[k]},
           callers := s.callers[p := c.(pc := Creating(k + 1), created := c.created + {c.names[k]})])
    case Release(_, entry) =>
      s.(flags := s.flags - {c.locks[entry]},
         callers := s.callers[p := c.(locks := Removed(c.locks, entry))])
  }

  /** No flags are held; flag files left over from elsewhere may exist. */
  predicate Init(s: Sys) {
    && s.flock.None?
    && forall p :: 0 <= p < |s.callers| ==> s.callers[p] == Caller(Idle, [], {}, {}, None, [])
  }

  // ---- ownership

  /** What a participant owns: its list, and what it is about to create under the flock. */
  function Owned(c: Caller): set<string> {
    Names(c.locks) + if c.pc.Creating? then Names(c.names) else {}
  }

  predicate Exclusive(s: Sys) {
    forall p, q :: 0 <= p < q < |s.callers| ==> Owned(s.callers[p]) !! Owned(s.callers[q])
  }

  /** The latest call did what its result says. */
  predicate ResultOk(c: Caller) {
    && (c.result == Some(Positive) ==> c.absent == c.created == Names(c.names))
    && (c.result.Some? && !c.result.value.Positive? ==> c.created == {})
  }

  predicate CallerOk(c: Caller, flags: set<string>) {
    && Distinct(c.locks)
    && Names(c.locks) <= flags
    && Distinct(c.names)
    && match c.pc
       case Idle => ResultOk(c)
       case Checking(k) =>
         && k <= |c.names| && c.created == {} && c.result.None?
         && c.absent == Names(c.names[..k]) && c.absent !! flags
       case Refusing => c.created == {} && c.result.None?
       case Creating(k) =>
         && k <= |c.names| && c.result.None?
         && c.absent == Names(c.names)
         && c.created == Names(c.names[..k]) <= flags
         && Names(c.names[k..]) !! flags
         && Names(c.names) !! Names(c.locks)
  }

  predicate Inv(s: Sys) {
    && (forall p :: 0 <= p < |s.callers| ==>
          CallerOk(s.callers[p], s.flags) && (s.callers[p].pc.Idle? <==> s.flock != Some(p)))
    && Exclusive(s)
  }

  /** A call names each flag once. */
  predicate NoRepeats(step: Step) {
    match step
    case TryLock(_, names) => Distinct(names)
    case FlockError(_, names) => Distinct(names)
    case _ => true
  }

  lemma InitInv(s: Sys)
    requires Init(s)
    ensures Inv(s)
  {
  }

  // ---- one step

  lemma RemovedFacts(names: seq<string>, i: nat)
    requires i < |names| && Distinct(names)
    ensures Distinct(Removed(names, i))
    ensures Names(Removed(names, i)) == Names(names) - {names[i]}
  {
    var r := Removed(names, i);
    forall n | n in names && n != names[i] ensures n in r {
      var k :| 0 <= k < |names| && names[k] == n;
      assert n == r[if k < i then k else k - 1];
    }
  }

  lemma JoinedFacts(a: seq<string>, b: seq<string>)
    requires Distinct(a) && Distinct(b) && Names(a) !! Names(b)
    ensures Distinct(a + b) && Names(a + b) == Names(a) + Names(b)
  {
    forall i, j | 0 <= i < |a| && 0 <= j < |b| ensures a[i] != b[j] {
      assert a[i] in Names(a) && b[j] in Names(b);
    }
  }

  lemma PrefixFacts(names: seq<string>, k: nat)
    requires k < |names| && Distinct(names)
    ensures Names(names[..k + 1]) == Names(names[..k]) + {names[k]}
    ensures Names(names[k..]) == Names(names[k + 1..]) + {names[k]}
    ensures names[k] !in names[k + 1..]
  {
    assert names[..k + 1] == names[..k] + [names[k]];
    assert names[k..] == [names[k]] + names[k + 1..];
  }

  lemma CheckOk(s: Sys, p: nat)
    requires Inv(s) && Can(s, Check(p))
    ensures CallerOk(Do(s, Check(p)).callers[p], Do(s, Check(p)).flags)
  {
    var c := s.callers[p];
    assert CallerOk(c, s.flags);
    if c.pc.k < |c.names| {
      PrefixFacts(c.names, c.pc.k);
    } else {
      assert c.names[..c.pc.k] == c.names && c.names[0..] == c.names && c.names[..0] == [];
    }
  }

  lemma CreateOk(s: Sys, p: nat)
    requires Inv(s) && Can(s, Create(p))
    ensures CallerOk(Do(s, Create(p)).callers[p], Do(s, Create(p)).flags)
  {
    var c := s.callers[p];
    assert CallerOk(c, s.flags);
    if c.pc.k < |c.names| {
      PrefixFacts(c.names, c.pc.k);
    } else {
      assert c.names[..c.pc.k] == c.names;
      JoinedFacts(c.locks, c.names);
    }
  }

  /** The caller itself after its step. */
  lemma SelfOk(s: Sys, step: Step)
    requires Inv(s) && Can(s, step) && NoRepeats(step)
    ensures CallerOk(Do(s, step).callers[step.p], Do(s, step).flags)
  {
    var c := s.callers[step.p];
    assert CallerOk(c, s.flags);
    match step
    case Check(p) => CheckOk(s, p);
    case Create(p) => CreateOk(s, p);
    case Release(p, entry) => RemovedFacts(c.locks, entry);
    case _ =>
  }

  /** A caller that does not move keeps what it has: flags are created only under the flock and
      removed only by their owner. */
  lemma OtherOk(s: Sys, step: Step, q: nat)
    requires Inv(s) && Can(s, step) && q < |s.callers| && q != step.p
    ensures CallerOk(s.callers[q], Do(s, step).flags)
  {
    assert CallerOk(s.callers[q], s.flags) && CallerOk(s.callers[step.p], s.flags);
    assert Owned(s.callers[q]) !! Owned(s.callers[step.p]);
  }

  /** How one step changes who owns what. */
  datatype Change = Same | Acquire(names: set<string>) | GiveUp(name: string)

  function ChangeOf(s: Sys, step: Step): Change
    requires Can(s, step)
  {
    var c := s.callers[step.p];
    if step.Check? && c.pc.k == |c.names| then Acquire(Names(c.names))
    else if step.Release? then GiveUp(c.locks[step.entry])
    else Same
  }

  /** The protocol refines an atomic lock table: a step leaves the ownership alone, or takes all
      requested names at once while nobody owns any of them, or gives up one owned name. */
  lemma StepRefines(s: Sys, step: Step)
    requires Inv(s) && Can(s, step) && NoRepeats(step)
    ensures var r := Do(s, step); var p := step.p;
            && (forall q :: 0 <= q < |s.callers| && q != p ==> r.callers[q] == s.callers[q])
            && match ChangeOf(s, step)
               case Same => Owned(r.callers[p]) == Owned(s.callers[p])
               case Acquire(names) =>
                 && Owned(r.callers[p]) == Owned(s.callers[p]) + names
                 && forall q :: 0 <= q < |s.callers| ==> Owned(s.callers[q]) !! names
               case GiveUp(name) =>
                 name in Owned(s.callers[p]) && Owned(r.callers[p]) == Owned(s.callers[p]) - {name}
  {
    var c := s.callers[step.p];
    assert CallerOk(c, s.flags);
    match step
    case Check(p) =>
      if c.pc.k == |c.names| {
        assert c.names[..c.pc.k] == c.names;
        forall q | 0 <= q < |s.callers| ensures Owned(s.callers[q]) !! Names(c.names) {
          assert CallerOk(s.callers[q], s.flags);
        }
      }
    case Create(p) =>
      if c.pc.k == |c.names| {
        assert Names(c.locks + c.names) == Names(c.locks) + Names(c.names);
      }
    case Release(p, entry) => RemovedFacts(c.locks, entry);
    case _ =>
  }

  lemma StepInv(s: Sys, step: Step)
    requires Inv(s) && Can(s, step) && NoRepeats(step)
    ensures Inv(Do(s, step))
  {
    hide CallerOk, Owned, Names, Distinct;
    var r := Do(s, step);
    StepExclusive(s, step);
    forall q | 0 <= q < |r.callers| ensures CallerOk(r.callers[q], r.flags) {
      if q == step.p {
        SelfOk(s, step);
      } else {
        OtherOk(s, step, q);
      }
    }
  }

  lemma StepExclusive(s: Sys, step: Step)
    requires Inv(s) && Can(s, step) && NoRepeats(step)
    ensures Exclusive(Do(s, step))
  {
    hide CallerOk, Owned, Names, Distinct;
    StepRefines(s, step);
    var r := Do(s, step);
    forall q | 0 <= q < |r.callers| && q != step.p ensures Owned(r.callers[q]) !! Owned(r.callers[step.p]) {
      assert Owned(s.callers[q]) !! Owned(s.callers[step.p]);
    }
  }

  // ---- runs

  predicate CanRun(s: Sys, steps: seq<Step>)
    decreases |steps|
  {
    steps == [] || (Can(s, steps[0]) && CanRun(Do(s, steps[0]), steps[1..]))
  }

  function RunOf(s: Sys, steps: seq<Step>): Sys
    requires CanRun(s, steps)
    decreases |steps|
  {
    if steps == [] then s else RunOf(Do(s, steps[0]), steps[1..])
  }

  lemma {:induction false} RunInv(s: Sys, steps: seq<Step>)
    requires Inv(s) && CanRun(s, steps)
    requires forall k :: 0 <= k < |steps| ==> NoRepeats(steps[k])
    ensures Inv(RunOf(s, steps))
    decreases |steps|
  {
    hide Inv, Can, Do;
    if steps != [] {
      StepInv(s, steps[0]);
      RunInv(Do(s, steps[0]), steps[1..]);
    }
  }

  /** Under every interleaving no flag is in the lists of two processes, the flock has at most one
      holder, and results mean what they say. */
  lemma MutualExclusion(s: Sys, steps: seq<Step>)
    requires Init(s) && CanRun(s, steps)
    requires forall k :: 0 <= k < |steps| ==> NoRepeats(steps[k])
    ensures var r := RunOf(s, steps);
            && (forall p, q, n :: 0 <= p < q < |r.callers| && n in r.callers[p].locks ==> n !in r.callers[q].locks)
            && (forall p, n :: 0 <= p < |r.callers| && n in r.callers[p].locks ==> n in r.flags)
            && (forall p, q :: 0 <= p < q < |r.callers| ==> r.callers[p].pc.Idle? || r.callers[q].pc.Idle?)
            && (forall p :: 0 <= p < |r.callers| && r.callers[p].pc.Idle? ==>
                  r.flock != Some(p) && ResultOk(r.callers[p]))
  {
    InitInv(s);
    RunInv(s, steps);
    var r := RunOf(s, steps);
    forall p, q, n | 0 <= p < q < |r.callers| && n in r.callers[p].locks ensures n !in r.callers[q].locks {
      assert n in Owned(r.callers[p]) && Owned(r.callers[p]) !! Owned(r.callers[q]);
    }
    forall p | 0 <= p < |r.callers|
      ensures Names(r.callers[p].locks) <= r.flags && (r.callers[p].pc.Idle? ==> ResultOk(r.callers[p]))
    {
      assert CallerOk(r.callers[p], r.flags);
    }
  }
}
