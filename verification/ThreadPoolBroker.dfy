/** The broker of the pool as the code has it: a loop over the pipe with a scan over the workers,
    while workers and committers go on between any two of its locked sections. */
module ThreadPoolBrokerClass {
  import opened ThreadPool
  import opened ThreadPoolLaws

  /** Whether a worker can take a step does not depend on anything else. */
  predicate Able(workers: seq<Worker>, step: Step)
    requires IsWorkerStep(step)
    ensures Able(workers, step) ==> step.id < |workers|
    ensures forall s: Pool {:trigger Can(s, step)} :: s.workers == workers ==> (Can(s, step) <==> Able(workers, step))
  {
    Can(Pool([], 0, [], workers, Resting), step)
  }

  class Broker {
    // shared with the other threads
    var pipe: seq<Req>
    var committed: nat
    var workers: seq<Worker>
    // what the machine adds, and the run so far
    ghost var broker: ThreadPool.Broker
    ghost var log: seq<nat>
    ghost const start: Pool
    ghost var trace: seq<Step>

    ghost function Abs(): Pool
      reads this
    {
      Pool(pipe, committed, log, workers, broker)
    }

    /** Everything done so far, by whomever, is a run of the machine. */
    ghost predicate Valid()
      reads this
    {
      && Inv(start)
      && CanRun(start, trace)
      && RunOf(start, trace) == Abs()
      && Inv(Abs())
    }

    constructor (workers: seq<Worker>)
      requires Init(Pool([], 0, [], workers, Resting))
      ensures Valid() && pipe == [] && log == [] && broker.Resting? && this.workers == workers
    {
      pipe, committed, this.workers := [], 0, workers;
      broker, log, trace := Resting, [], [];
      start := Pool([], 0, [], workers, Resting);
      new;
      InitInv(start);
      NoSteps(start);
    }

    /** `procAdd` of any thread. */
    method ProcAdd(idDriver: int)
      requires Valid()
      modifies this`pipe, this`committed, this`trace
      ensures Valid() && old(trace) <= trace && committed == old(committed) + 1
      ensures pipe == old(pipe) + [Req(old(committed), idDriver)]
    {
      RunOn(start, trace, Commit(idDriver));
      pipe, committed := pipe + [Req(committed, idDriver)], committed + 1;
      trace := trace + [Commit(idDriver)];
    }

    method WorkerDoes(step: Step)
      requires Valid() && IsWorkerStep(step) && Can(Abs(), step)
      modifies this`workers, this`trace
      ensures Valid() && |workers| == |old(workers)| && old(trace) <= trace
    {
      RunOn(start, trace, step);
      workers := workers[step.id := DoWorker(workers[step.id], step)];
      trace := trace + [step];
    }

    /** Other threads: any number of their steps, at most `commits` of them commits. */
    method Elsewhere(commits: nat) returns (left: nat)
      requires Valid()
      modifies this`pipe, this`committed, this`workers, this`trace
      ensures Valid() && |workers| == |old(workers)| && old(pipe) <= pipe && old(trace) <= trace
      ensures left + |pipe| == commits + |old(pipe)|
    {
      hide Can, Inv;
      left := commits;
      var count: int := *;
      while count > 0
        invariant Valid() && |workers| == |old(workers)| && old(pipe) <= pipe && old(trace) <= trace
        invariant left + |pipe| == commits + |old(pipe)|
      {
        var step: Step := *;
        if step.Commit? && left > 0 {
          ProcAdd(step.desired);
          left := left - 1;
        } else if IsWorkerStep(step) && Able(workers, step) {
          WorkerDoes(step);
        }
        count := count - 1;
      }
    }

    /** The scan over the workers, with the others at work between any two reads. */
    method IdDriverNextGet(commits: nat) returns (idSelected: nat, left: nat)
      requires Valid() && broker.Scanning? && broker.seen == [] && |workers| > 0
      modifies this`pipe, this`committed, this`workers, this`trace, this`broker
      ensures Valid() && |workers| == |old(workers)| && old(pipe) <= pipe && old(trace) <= trace
      ensures left + |pipe| == commits + |old(pipe)|
      ensures broker == Adding(old(broker).req, idSelected, old(broker).atStart) && idSelected < |workers|
    {
      hide Broker.Valid;
      var numProcessingSelected := workers[0].numProcessing;
      Read(numProcessingSelected);
      idSelected, left := 0, commits;
      var idCurrent := 1;
      while idCurrent < |workers|
        invariant 1 <= idCurrent <= |workers| == |old(workers)| && Valid()
        invariant old(pipe) <= pipe && old(trace) <= trace
        invariant left + |pipe| == commits + |old(pipe)|
        invariant broker.Scanning? && |broker.seen| == idCurrent
        invariant broker.req == old(broker).req && broker.atStart == old(broker).atStart
        invariant broker.selected == idSelected < idCurrent && broker.seen[idSelected] == numProcessingSelected
      {
        left := Elsewhere(left);
        var numProcessingCurrent := workers[idCurrent].numProcessing;
        Read(numProcessingCurrent);
        if numProcessingCurrent < numProcessingSelected {
          numProcessingSelected := numProcessingCurrent;
          idSelected := idCurrent;
        }
        idCurrent := idCurrent + 1;
      }
      Choose();
    }

    /** What the machine notes at the end of a scan. */
    ghost method Choose()
      requires Valid() && broker.Scanning? && |broker.seen| == |workers|
      modifies this`trace, this`broker
      ensures Valid() && old(trace) <= trace
      ensures broker == Adding(old(broker).req, old(broker).selected, old(broker).atStart)
    {
      RunOn(start, trace, BrokerChoose);
      broker, trace := Adding(broker.req, broker.selected, broker.atStart), trace + [BrokerChoose];
    }

    /** What the machine notes of a read. */
    ghost method Read(load: int)
      requires Valid() && broker.Scanning? && |broker.seen| < |workers|
      requires load == workers[|broker.seen|].numProcessing
      modifies this`trace, this`broker
      ensures Valid() && old(trace) <= trace
      ensures broker == old(broker).(seen := old(broker).seen + [load],
                                     selected := Better(old(broker).seen, old(broker).selected, load))
    {
      RunOn(start, trace, BrokerRead);
      trace := trace + [BrokerRead];
      broker := broker.(seen := broker.seen + [load], selected := Better(broker.seen, broker.selected, load));
    }

    /** Hands the request over to the chosen worker. */
    method ProcInternalAdd(idDriver: nat, ticket: nat)
      requires Valid() && broker.Adding? && broker.id == idDriver < |workers| && broker.req.ticket == ticket
      modifies this`workers, this`trace, this`broker, this`log
      ensures Valid() && broker.Draining? && log == old(log) + [idDriver] && old(trace) <= trace
      ensures var w := old(workers)[idDriver];
              workers == old(workers)[idDriver := w.(requests := w.requests + [ticket],
                                                     numProcessing := w.numProcessing + 1)]
    {
      RunOn(start, trace, BrokerAdd);
      var w := workers[idDriver];
      workers := workers[idDriver := w.(requests := w.requests + [ticket], numProcessing := w.numProcessing + 1)];
      broker, log, trace := Draining, log + [idDriver], trace + [BrokerAdd];
    }

    /** Drains the pipe. Whatever the others do meanwhile, every request that was in it is handed
        over, in order, and the loop is a run of the machine. */
    method PoolRequestsProcess(commits: nat)
      requires Valid() && broker.Resting?
      modifies this
      ensures Valid() && broker.Resting? && |workers| == |old(workers)|
      ensures old(log) <= log && |log| >= |old(log)| + |old(pipe)|
      ensures pipe == [] && old(trace) < trace && trace[|trace| - 1] == BrokerLeave
    {
      RunOn(start, trace, BrokerEnter);
      broker, trace := Draining, trace + [BrokerEnter];
      var left: nat := commits;
      while pipe != []
        invariant Valid() && broker.Draining? && |workers| == |old(workers)| && old(log) <= log
        invariant |log| + |pipe| >= |old(log)| + |old(pipe)| && old(trace) < trace
        decreases left + |pipe|
      {
        var req := pipe[0];
        left := Dispatch(req, left);
      }
      RunOn(start, trace, BrokerLeave);
      broker, trace := Resting, trace + [BrokerLeave];
    }

    /** Takes the request out of the pipe. */
    method Get(req: Req) returns (desired: bool)
      requires Valid() && broker.Draining? && pipe != [] && req == pipe[0]
      modifies this`pipe, this`trace, this`broker
      ensures Valid() && pipe == old(pipe)[1..] && old(trace) <= trace && |workers| > 0
      ensures desired == (0 <= req.desired < |workers|)
      ensures broker == if desired then Adding(req, req.desired, []) else Scanning(req, [], 0, Loads(workers))
    {
      desired := 0 <= req.desired < |workers|;
      RunOn(start, trace, BrokerGet);
      pipe := pipe[1..];
      broker := if desired then Adding(req, req.desired, []) else Scanning(req, [], 0, Loads(workers));
      trace := trace + [BrokerGet];
    }

    method Dispatch(req: Req, commits: nat) returns (left: nat)
      requires Valid() && broker.Draining? && pipe != [] && req == pipe[0]
      modifies this
      ensures Valid() && broker.Draining? && |workers| == |old(workers)| && old(trace) <= trace
      ensures |log| == |old(log)| + 1 && old(log) <= log
      ensures 0 <= req.desired < |workers| ==> log[|old(log)|] == req.desired
      ensures left + |pipe| == commits + |old(pipe)| - 1 && |pipe| >= |old(pipe)| - 1
    {
      hide Broker.Valid;
      var desired := Get(req);
      var idDriver: nat;
      if desired {
        idDriver, left := req.desired, commits;
      } else {
        idDriver, left := IdDriverNextGet(commits);
      }
      left := Elsewhere(left);
      ProcInternalAdd(idDriver, req.ticket);
    }
  }
}
