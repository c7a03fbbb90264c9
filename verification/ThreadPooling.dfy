/** One worker of the pool as the code has it: two lists changed in place, while the broker, the other
    workers and the committers go on between any two of its locked sections. */
module ThreadPoolingClass {
  import opened ThreadPool
  import opened ThreadPoolLaws

  // ---- what one pass over the drive list does

  /** The processes that made progress, in order. */
  function Kept(all: seq<nat>, progress: seq<bool>): (r: seq<nat>)
    requires |all| == |progress|
    ensures |r| <= |all|
  {
    if all == [] then []
    else
      var n := |all| - 1;
      Kept(all[..n], progress[..n]) + if progress[n] then [all[n]] else []
  }

  function Dropped(all: seq<nat>, progress: seq<bool>): set<nat>
    requires |all| == |progress|
  {
    set i | 0 <= i < |all| && !progress[i] :: all[i]
  }

  lemma KeptOn(all: seq<nat>, progress: seq<bool>, i: nat, more: bool)
    requires |progress| == i < |all|
    ensures Kept(all[..i + 1], progress + [more]) == Kept(all[..i], progress) + if more then [all[i]] else []
    ensures Dropped(all[..i + 1], progress + [more]) == Dropped(all[..i], progress) + if more then {} else {all[i]}
  {
    var now, next := all[..i + 1], progress + [more];
    assert now[..i] == all[..i] && next[..i] == progress;
    forall t ensures t in Dropped(now, next) <==> t in Dropped(all[..i], progress) || (!more && t == all[i]) {
      if t in Dropped(all[..i], progress) {
        var k :| 0 <= k < i && !progress[k] && all[..i][k] == t;
        assert !next[k] && now[k] == t;
      }
      if !more && t == all[i] {
        assert !next[i] && now[i] == t;
      }
    }
  }

  /** Where a pass stands: the first |progress| processes are done with; `before` were finished when it
      began, `finished` are now. */
  predicate Pass(all: seq<nat>, progress: seq<bool>, procs: seq<nat>, pos: nat,
                 before: set<nat>, finished: set<nat>) {
    && |progress| <= |all|
    && procs == Kept(all[..|progress|], progress) + all[|progress|..]
    && pos == |Kept(all[..|progress|], progress)|
    && finished == before + Dropped(all[..|progress|], progress)
  }

  lemma PassStarts(all: seq<nat>, before: set<nat>)
    ensures Pass(all, [], all, 0, before, before)
  {
  }

  lemma PassKeeps(all: seq<nat>, progress: seq<bool>, procs: seq<nat>, pos: nat, before: set<nat>, finished: set<nat>)
    requires Pass(all, progress, procs, pos, before, finished) && pos < |procs|
    ensures Pass(all, progress + [true], procs, pos + 1, before, finished)
  {
    var n := |progress|;
    KeptOn(all, progress, n, true);
    hide Kept, Dropped;
    assert all[n..] == [all[n]] + all[n + 1..];
    assert Kept(all[..n], progress) + ([all[n]] + all[n + 1..]) == Kept(all[..n], progress) + [all[n]] + all[n + 1..];
  }

  lemma PassRetires(all: seq<nat>, progress: seq<bool>, procs: seq<nat>, pos: nat, before: set<nat>, finished: set<nat>)
    requires Pass(all, progress, procs, pos, before, finished) && pos < |procs|
    ensures |Removed(procs, pos)| == |procs| - 1
    ensures Pass(all, progress + [false], Removed(procs, pos), pos, before, finished + {procs[pos]})
  {
    var n := |progress|;
    KeptOn(all, progress, n, false);
    hide Kept, Dropped;
    var kept := Kept(all[..n], progress);
    assert Removed(kept + all[n..], |kept|) == kept + all[n + 1..];
    assert before + Dropped(all[..n], progress) + {all[n]} == before + (Dropped(all[..n], progress) + {all[n]});
  }

  lemma PassEnds(all: seq<nat>, progress: seq<bool>, procs: seq<nat>, pos: nat,
                 before: set<nat>, finished: set<nat>)
    requires Pass(all, progress, procs, pos, before, finished) && pos >= |procs|
    ensures |progress| == |all| && pos == |procs|
    ensures procs == Kept(all, progress) && finished == before + Dropped(all, progress)
  {
    assert all[..|all|] == all;
  }

  // ---- the other threads

  predicate OwnStep(step: Step, id: nat) {
    IsWorkerStep(step) && step.id == id
  }

  /** Nobody else touches what a worker drives; its requests only grow, and its load with them. */
  predicate Untouched(w: Worker, v: Worker) {
    && v.procs == w.procs && v.drive == w.drive
    && v.numFinished == w.numFinished && v.finished == w.finished && v.shutdown == w.shutdown
    && w.requests <= v.requests
    && v.numProcessing - |v.requests| == w.numProcessing - |w.requests|
  }

  lemma OthersLeave(s: Pool, step: Step, id: nat)
    requires Inv(s) && Can(s, step) && !OwnStep(step, id) && id < |s.workers|
    ensures |Do(s, step).workers| == |s.workers|
    ensures var w, v := s.workers[id], Do(s, step).workers[id];
            Untouched(w, v) && ((step.BrokerAdd? && s.broker.id == id) || v == w.(cancelled := v.cancelled))
  {
    hide WorkerOk, PipeOk, FirstMin, DoWorker;
  }

  lemma Overwritten(workers: seq<Worker>, id: nat, was: Worker, now: Worker)
    requires id < |workers|
    ensures workers[id := was][id] == was && workers[id := was][id := now] == workers[id := now]
  {
  }

  class Internal {
    const id: nat
    // its own fields, and the place its pass has reached
    var requests: seq<nat>
    var procs: seq<nat>
    var numProcessing: int
    var numFinished: int
    var finished: set<nat>
    var cancelled: bool
    var shutdown: Shutdown
    var drive: Drive
    // the rest of the pool; its entry for this worker is not used
    var rest: Pool
    ghost const start: Pool
    ghost var trace: seq<Step>

    function Own(): Worker
      reads this
    {
      Worker(requests, procs, drive, numProcessing, numFinished, finished, cancelled, shutdown)
    }

    function Abs(): Pool
      requires id < |rest.workers|
      reads this
    {
      rest.(workers := rest.workers[id := Own()])
    }

    /** Everything done so far, by whomever, is a run of the machine. */
    ghost predicate Valid()
      reads this
    {
      && id < |rest.workers|
      && Inv(start)
      && CanRun(start, trace)
      && RunOf(start, trace) == Abs()
      && Inv(Abs())
    }

    /** Worker `id` of a pool that has just started its workers. */
    constructor (id: nat, pool: Pool)
      requires Init(pool) && id < |pool.workers|
      ensures Valid() && this.id == id && Abs() == pool && drive.Idle? && shutdown.Off?
    {
      this.id, rest, start, trace := id, pool, pool, [];
      requests, procs, numProcessing, numFinished, finished := [], [], 0, 0, {};
      cancelled, shutdown, drive := false, Off, Idle;
      new;
      InitInv(pool);
      NoSteps(pool);
      assert Own() == pool.workers[id];
    }

    /** Called by the broker: the request in its hand goes to this worker. */
    method ProcInternalAdd(ticket: nat)
      requires Valid() && rest.broker.Adding? && rest.broker.id == id && rest.broker.req.ticket == ticket
      modifies this`requests, this`numProcessing, this`rest, this`trace
      ensures Valid() && trace == old(trace) + [BrokerAdd]
      ensures requests == old(requests) + [ticket] && numProcessing == old(numProcessing) + 1
    {
      hide Inv;
      RunOn(start, trace, BrokerAdd);
      ghost var was := Own();
      requests := requests + [ticket];
      numProcessing := numProcessing + 1;
      rest := rest.(log := rest.log + [id], broker := Draining);
      Overwritten(rest.workers, id, was, Own());
      trace := trace + [BrokerAdd];
    }

    /** A step of anybody else. */
    method Other(step: Step)
      requires Valid() && Can(Abs(), step) && !OwnStep(step, id)
      modifies this`requests, this`numProcessing, this`cancelled, this`rest, this`trace
      ensures Valid() && Untouched(old(Own()), Own()) && trace == old(trace) + [step]
    {
      assert step.BrokerAdd? ==> rest.broker.Adding?;
      var handed := step.BrokerAdd? && rest.broker.id == id;
      hide Can, Valid;
      if handed {
        ProcInternalAdd(rest.broker.req.ticket);
      } else {
        Foreign(step);
      }
    }

    /** A step that gives this worker nothing. */
    method Foreign(step: Step)
      requires Valid() && Can(Abs(), step) && !OwnStep(step, id)
      requires step.BrokerAdd? ==> rest.broker.Adding? && rest.broker.id != id
      modifies this`cancelled, this`rest, this`trace
      ensures Valid() && trace == old(trace) + [step]
    {
      hide Can, Do, Inv;
      RunOn(start, trace, step);
      OthersLeave(Abs(), step, id);
      rest := Do(Abs(), step);
      cancelled := rest.workers[id].cancelled;
      assert rest.workers[id := Own()] == rest.workers;
      trace := trace + [step];
    }

    /** Whatever the others do between two locked sections of this worker. */
    method Elsewhere()
      requires Valid()
      modifies this`requests, this`numProcessing, this`cancelled, this`rest, this`trace
      ensures Valid() && Untouched(old(Own()), Own()) && old(trace) <= trace
    {
      hide Can, Valid;
      var count: int := *;
      while count > 0
        invariant Valid() && Untouched(old(Own()), Own()) && old(trace) <= trace
      {
        var step: Step := *;
        InPool();
        if !OwnStep(step, id) && Can(Abs(), step) {
          Other(step);
        }
        count := count - 1;
      }
    }

    lemma InPool()
      requires Valid()
      ensures id < |rest.workers|
    {
    }

    /** Ticks the process at the place of the pass and retires it if it made no progress. */
    method DriveOne() returns (goesOn: bool)
      requires Valid() && drive.Driving? && drive.pos < |procs|
      modifies this
      ensures Valid() && old(trace) <= trace && shutdown == old(shutdown)
      ensures var pos := old(drive.pos);
              if goesOn then procs == old(procs) && finished == old(finished) && drive == Driving(pos + 1)
              else procs == Removed(old(procs), pos) && finished == old(finished) + {old(procs)[pos]}
                   && drive == Driving(pos)
      ensures old(requests) <= requests
      ensures numProcessing - |requests| == old(numProcessing - |requests|) - if goesOn then 0 else 1
      ensures numFinished == old(numFinished) + if goesOn then 0 else 1
    {
      hide Valid;
      Elsewhere();
      goesOn := *;
      Tick(goesOn);
      if !goesOn {
        Elsewhere();
        Erase();
      }
    }

    /** The locked section of a retirement, or nothing for a process that goes on. */
    method Tick(progress: bool)
      requires Valid() && drive.Driving? && drive.pos < |procs|
      modifies this`numProcessing, this`drive, this`trace
      ensures Valid() && trace == old(trace) + [WorkerTick(id, progress)]
      ensures numProcessing == old(numProcessing) - if progress then 0 else 1
      ensures drive == if progress then Driving(old(drive).pos + 1) else Retiring(old(drive).pos)
    {
      hide Inv;
      RunOn(start, trace, WorkerTick(id, progress));
      ghost var was := Own();
      if progress {
        drive := Driving(drive.pos + 1);
      } else {
        numProcessing := numProcessing - 1;
        drive := Retiring(drive.pos);
      }
      Overwritten(rest.workers, id, was, Own());
      trace := trace + [WorkerTick(id, progress)];
    }

    method Erase()
      requires Valid() && drive.Retiring? && drive.pos < |procs|
      modifies this`numFinished, this`finished, this`procs, this`drive, this`trace
      ensures Valid() && trace == old(trace) + [WorkerErase(id)]
      ensures procs == Removed(old(procs), old(drive).pos) && drive == Driving(old(drive).pos)
      ensures finished == old(finished) + {old(procs)[old(drive).pos]} && numFinished == old(numFinished) + 1
    {
      hide Inv;
      RunOn(start, trace, WorkerErase(id));
      ghost var was := Own();
      var pos := drive.pos;
      numFinished := numFinished + 1;
      finished := finished + {procs[pos]};
      procs := procs[..pos] + procs[pos + 1..];
      drive := Driving(pos);
      Overwritten(rest.workers, id, was, Own());
      trace := trace + [WorkerErase(id)];
    }

    /** The locked section at the start of a pass. */
    method TakeUp()
      requires Valid() && drive.Idle? && !shutdown.Done?
      modifies this`procs, this`requests, this`drive, this`trace
      ensures Valid() && trace == old(trace) + [WorkerTakeUp(id)]
      ensures procs == old(procs + requests) && requests == [] && drive == Driving(0)
    {
      RunOn(start, trace, WorkerTakeUp(id));
      ghost var was := Own();
      procs, requests, drive := procs + requests, [], Driving(0);
      Overwritten(rest.workers, id, was, Own());
      trace := trace + [WorkerTakeUp(id)];
    }

    /** The end of a pass, and with it of a shutdown if nothing is left to drive. */
    method Return()
      requires Valid() && drive == Driving(|procs|)
      modifies this`shutdown, this`drive, this`trace
      ensures Valid() && trace == old(trace) + [WorkerReturn(id)] && drive.Idle?
      ensures shutdown == if old(shutdown).Off? then Off else if procs == [] then Done else Main
    {
      hide Inv;
      RunOn(start, trace, WorkerReturn(id));
      ghost var was := Own();
      shutdown := if shutdown.Off? then Off else if procs == [] then Done else Main;
      drive := Idle;
      Overwritten(rest.workers, id, was, Own());
      trace := trace + [WorkerReturn(id)];
    }

    /** The framework turns a cancelled worker towards its shutdown; from then on the passes are those
        of `shutdown`. */
    method StartShutdown()
      requires Valid() && drive.Idle? && cancelled && shutdown.Off?
      modifies this`shutdown, this`trace
      ensures Valid() && trace == old(trace) + [WorkerShutdown(id)] && shutdown.Start?
    {
      hide Inv;
      RunOn(start, trace, WorkerShutdown(id));
      ghost var was := Own();
      shutdown := Shutdown.Start;
      Overwritten(rest.workers, id, was, Own());
      trace := trace + [WorkerShutdown(id)];
    }

    /** One pass: takes up the requests, drives every process once and retires those without
        progress. Whatever the others do meanwhile, the pool makes a run of the machine. */
    method ProcsDrive() returns (ghost progress: seq<bool>)
      requires Valid() && drive.Idle? && !shutdown.Done?
      modifies this
      ensures Valid() && old(trace) < trace && drive.Idle?
      ensures |progress| == |old(procs + requests)|
      ensures procs == Kept(old(procs + requests), progress)
      ensures finished == old(finished) + Dropped(old(procs + requests), progress)
      ensures numProcessing - |requests| + |old(procs + requests)| == old(numProcessing) + |procs|
      ensures numFinished + |procs| == old(numFinished) + |old(procs + requests)|
      ensures shutdown == if old(shutdown).Off? then Off else if procs == [] then Done else Main
    {
      ghost var all, before, retired := procs + requests, finished, 0;
      progress := [];
      hide Valid, Pass, Dropped, Kept, Removed;
      TakeUp();
      PassStarts(all, before);
      while drive.pos < |procs|
        invariant Valid() && old(trace) < trace && drive.Driving? && shutdown == old(shutdown)
        invariant Pass(all, progress, procs, drive.pos, before, finished)
        invariant retired + |procs| == |all|
        invariant numProcessing - |requests| == old(numProcessing) - retired
        invariant numFinished == old(numFinished) + retired
        decreases |procs| - drive.pos
      {
        PassKeeps(all, progress, procs, drive.pos, before, finished);
        PassRetires(all, progress, procs, drive.pos, before, finished);
        var goesOn := DriveOne();
        if goesOn {
          progress := progress + [true];
        } else {
          progress, retired := progress + [false], retired + 1;
        }
      }
      PassEnds(all, progress, procs, drive.pos, before, finished);
      Return();
    }
  }
}
