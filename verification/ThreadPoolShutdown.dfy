/** A shutdown of the thread pool can always be completed: from every state that keeps the invariant,
    and so from every reachable one, the steps of the broker and of the workers lead to Positive. */
module ThreadPoolShutdown {
  import opened ThreadPool
  import opened ThreadPoolLaws

  predicate NoCommits(steps: seq<Step>) {
    forall k :: 0 <= k < |steps| ==> !steps[k].Commit?
  }

  /** The broker and the workers can get from `s` to `r` by themselves. */
  ghost predicate Reaches(s: Pool, r: Pool) {
    exists steps :: CanRun(s, steps) && NoCommits(steps) && RunOf(s, steps) == r
  }

  lemma Here(s: Pool)
    ensures Reaches(s, s)
  {
    NoSteps(s);
  }

  lemma First(s: Pool, step: Step, r: Pool)
    requires Can(s, step) && !step.Commit? && Reaches(Do(s, step), r)
    ensures Reaches(s, r)
  {
    hide Can, Do;
    var steps :| CanRun(Do(s, step), steps) && NoCommits(steps) && RunOf(Do(s, step), steps) == r;
    var all := [step] + steps;
    assert all[0] == step && all[1..] == steps;
    assert CanRun(s, all) && NoCommits(all) && RunOf(s, all) == r;
  }

  lemma Chain(s: Pool, m: Pool, r: Pool)
    requires Reaches(s, m) && Reaches(m, r)
    ensures Reaches(s, r)
  {
    hide CanRun, RunOf;
    var a :| CanRun(s, a) && NoCommits(a) && RunOf(s, a) == m;
    var b :| CanRun(m, b) && NoCommits(b) && RunOf(m, b) == r;
    RunConcat(s, a, b);
    assert NoCommits(a + b);
  }

  lemma {:induction false} CommittedStays(s: Pool, steps: seq<Step>)
    requires CanRun(s, steps) && NoCommits(steps)
    ensures RunOf(s, steps).committed == s.committed
    decreases |steps|
  {
    if steps != [] {
      CommittedStays(Do(s, steps[0]), steps[1..]);
    }
  }

  // ---- the broker comes to rest

  function DrainStep(s: Pool): Step {
    match s.broker
    case Resting => BrokerEnter
    case Draining => if s.pipe == [] then BrokerLeave else BrokerGet
    case Scanning(_, seen, _, _) => if |seen| < |s.workers| then BrokerRead else BrokerChoose
    case _ => BrokerAdd
  }

  function DrainRank(s: Pool): int {
    match s.broker
    case Resting => if s.pipe == [] then 0 else 2
    case Draining => 1
    case Adding(_, _, _) => 3
    case Scanning(_, seen, _, _) => 4 + |s.workers| - |seen|
    case _ => 0
  }

  lemma DrainProgress(s: Pool)
    requires Inv(s) && !ShuttingDown(s) && (s.broker.Resting? ==> s.pipe != [])
    ensures Can(s, DrainStep(s)) && !DrainStep(s).Commit? && !ShuttingDown(Do(s, DrainStep(s)))
    ensures var e := Do(s, DrainStep(s));
            |e.pipe| < |s.pipe| || (|e.pipe| == |s.pipe| && 0 <= DrainRank(e) < DrainRank(s))
  {
    hide WorkerOk, PipeOk, FirstMin;
  }

  lemma {:induction false} DrainAll(s: Pool) returns (r: Pool)
    requires Inv(s) && !ShuttingDown(s)
    ensures Inv(r) && Reaches(s, r) && r.broker.Resting? && r.pipe == []
    decreases |s.pipe|, DrainRank(s)
  {
    hide Inv, Can, Do, DrainStep, Reaches;
    if s.broker.Resting? && s.pipe == [] {
      Here(s);
      return s;
    }
    DrainProgress(s);
    StepInv(s, DrainStep(s));
    r := DrainAll(Do(s, DrainStep(s)));
    First(s, DrainStep(s), r);
  }

  // ---- every worker is cancelled

  lemma {:induction false} CancelAll(s: Pool) returns (r: Pool)
    requires Inv(s) && s.broker.Cancelling?
    ensures Inv(r) && Reaches(s, r) && r.broker.Waiting?
    decreases |s.workers| - s.broker.next
  {
    hide Reaches, WorkerOk, PipeOk;
    var e := Do(s, BrokerCancel);
    StepInv(s, BrokerCancel);
    if s.broker.next < |s.workers| {
      r := CancelAll(e);
    } else {
      Here(e);
      r := e;
    }
    First(s, BrokerCancel, r);
  }

  // ---- a cancelled worker finishes

  /** What a cancelled worker does next, if the process in turn has nothing left to do. */
  function FinishStep(w: Worker, id: nat): Step {
    match w.drive
    case Idle => if w.shutdown.Off? then WorkerShutdown(id) else WorkerTakeUp(id)
    case Driving(pos) => if pos < |w.procs| then WorkerTick(id, false) else WorkerReturn(id)
    case Retiring(_) => WorkerErase(id)
  }

  function Held(w: Worker): nat {
    |w.procs| + |w.requests|
  }

  function FinishRank(w: Worker): nat {
    match w.drive
    case Idle => if w.shutdown.Off? then 5 else 4
    case Driving(pos) => if pos < |w.procs| then 3 else if w.shutdown.Off? || w.procs != [] then 6 else 1
    case Retiring(_) => 2
  }

  /** No process is picked up again and again: a worker holds less after each round of its list. */
  lemma FinishProgress(s: Pool, id: nat)
    requires Inv(s) && id < |s.workers| && s.workers[id].cancelled && !s.workers[id].shutdown.Done?
    ensures var step := FinishStep(s.workers[id], id);
            && IsWorkerStep(step) && step.id == id && Can(s, step)
            && var w, v := s.workers[id], DoWorker(s.workers[id], step);
               && v.cancelled
               && (v.shutdown.Done? || Held(v) < Held(w) || (Held(v) == Held(w) && FinishRank(v) < FinishRank(w)))
  {
    hide PipeOk, BrokerOk;
    assert WorkerOk(s.workers[id], id, s.log);
  }

  /** Nothing but worker `id` has changed. */
  predicate OnlyWorker(s: Pool, r: Pool, id: nat) {
    id < |s.workers| == |r.workers| && r == s.(workers := s.workers[id := r.workers[id]])
  }

  lemma {:induction false} FinishWorker(s: Pool, id: nat) returns (r: Pool)
    requires Inv(s) && id < |s.workers| && s.workers[id].cancelled
    ensures Inv(r) && Reaches(s, r) && OnlyWorker(s, r, id) && r.workers[id].shutdown.Done?
    decreases Held(s.workers[id]), FinishRank(s.workers[id]), !s.workers[id].shutdown.Done?
  {
    hide Inv, Can, DoWorker, Reaches, FinishStep, FinishRank, Held;
    if s.workers[id].shutdown.Done? {
      Here(s);
      return s;
    }
    FinishProgress(s, id);
    var step := FinishStep(s.workers[id], id);
    var e := Do(s, step);
    StepInv(s, step);
    if e.workers[id].shutdown.Done? {
      Here(e);
      r := e;
    } else {
      r := FinishWorker(e, id);
    }
    First(s, step, r);
  }

  lemma {:induction false} FinishAll(s: Pool, n: nat) returns (r: Pool)
    requires Inv(s) && s.broker.Waiting? && n <= |s.workers|
    requires forall i :: 0 <= i < n ==> s.workers[i].shutdown.Done?
    ensures Inv(r) && Reaches(s, r) && r.broker.Waiting?
    ensures forall i :: 0 <= i < |r.workers| ==> r.workers[i].shutdown.Done?
    decreases |s.workers| - n
  {
    hide Reaches, WorkerOk, PipeOk;
    if n == |s.workers| {
      Here(s);
      return s;
    }
    var e := FinishWorker(s, n);
    r := FinishAll(e, n + 1);
    Chain(s, e, r);
  }

  // ---- the broker notices

  lemma {:induction false} CheckAll(s: Pool) returns (r: Pool)
    requires Inv(s) && s.broker.Waiting?
    requires forall i :: 0 <= i < |s.workers| ==> s.workers[i].shutdown.Done?
    ensures Inv(r) && Reaches(s, r) && r.broker.Positive?
    decreases |s.workers| - s.broker.next
  {
    hide Reaches, WorkerOk, PipeOk;
    var e := Do(s, BrokerCheck);
    StepInv(s, BrokerCheck);
    if s.broker.next < |s.workers| {
      r := CheckAll(e);
    } else {
      Here(e);
      r := e;
    }
    First(s, BrokerCheck, r);
  }

  lemma Complete(s: Pool) returns (r: Pool)
    requires Inv(s) && ShuttingDown(s)
    ensures Inv(r) && Reaches(s, r) && r.broker.Positive?
  {
    hide Reaches, WorkerOk, PipeOk, BrokerOk;
    if s.broker.Positive? {
      Here(s);
      return s;
    }
    var waiting := s;
    Here(s);
    if s.broker.Cancelling? {
      waiting := CancelAll(s);
    }
    var finished := FinishAll(waiting, 0);
    r := CheckAll(finished);
    Chain(waiting, finished, r);
    Chain(s, waiting, r);
  }

  lemma Kept(s: Pool, r: Pool)
    requires Reaches(s, r)
    ensures r.committed == s.committed && (ShuttingDown(s) ==> r.log == s.log)
  {
    hide CanRun, RunOf;
    var steps :| CanRun(s, steps) && NoCommits(steps) && RunOf(s, steps) == r;
    CommittedStays(s, steps);
    if ShuttingDown(s) {
      PipeStays(s, steps);
    }
  }

  /** No state keeps the pool from shutting down. A shutdown that has begun can be completed without
      any commit. From a pool at work the broker can empty the pipe first, and then every process
      that was ever committed is finished when the shutdown answers Positive. */
  lemma ShutdownCompletes(s: Pool) returns (r: Pool)
    requires Inv(s)
    ensures Inv(r) && Reaches(s, r) && r.broker.Positive? && r.committed == s.committed
    ensures !ShuttingDown(s) ==>
              forall t :: 0 <= t < s.committed ==>
                t < |r.log| && r.log[t] < |r.workers| && t in r.workers[r.log[t]].finished
  {
    hide Reaches, WorkerOk, BrokerOk;
    if ShuttingDown(s) {
      r := Complete(s);
    } else {
      var rest := DrainAll(s);
      var told := Do(rest, BrokerShutdown);
      StepInv(rest, BrokerShutdown);
      r := Complete(told);
      Kept(told, r);
      First(rest, BrokerShutdown, r);
      Chain(s, rest, r);
      Kept(s, rest);
    }
    Kept(s, r);
    ShutdownDrains(r);
  }
}
