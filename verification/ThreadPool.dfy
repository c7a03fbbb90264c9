/** The thread pool as interleaved atomic steps: a broker that hands requests to workers,
    workers that drive and retire processes, and anybody who commits a request.
    Each section under a lock is one step. */
module ThreadPool {

  /** A committed process is known by the number of its commit. */
  datatype Req = Req(ticket: nat, desired: int)

  datatype Drive = Idle | Driving(pos: nat) | Retiring(pos: nat)

  datatype Shutdown = Off | Start | Main | Done

  datatype Worker = Worker(
    requests: seq<nat>,    // handed over, not taken up yet
    procs: seq<nat>,       // being driven
    drive: Drive,
    numProcessing: int,
    numFinished: int,
    finished: set<nat>,
    cancelled: bool,
    shutdown: Shutdown)

  datatype Broker =
    | Resting
    | Draining
    | Scanning(req: Req, seen: seq<int>, selected: nat, atStart: seq<int>)
    | Adding(req: Req, id: nat, atStart: seq<int>)
    | Cancelling(next: nat)
    | Waiting(next: nat)
    | Positive

  datatype Pool = Pool(
    pipe: seq<Req>,
    committed: nat,
    log: seq<nat>,         // the worker each ticket was dispatched to
    workers: seq<Worker>,
    broker: Broker)

  datatype Step =
    | Commit(desired: int)
    | BrokerEnter
    | BrokerGet
    | BrokerLeave
    | BrokerRead
    | BrokerChoose
    | BrokerAdd
    | BrokerShutdown
    | BrokerCancel
    | BrokerCheck
    | WorkerTakeUp(id: nat)
    | WorkerTick(id: nat, progress: bool)
    | WorkerErase(id: nat)
    | WorkerReturn(id: nat)
    | WorkerShutdown(id: nat)

  function Loads(ws: seq<Worker>): (loads: seq<int>)
    ensures |loads| == |ws| && forall i :: 0 <= i < |ws| ==> loads[i] == ws[i].numProcessing
  {
    seq(|ws|, i requires 0 <= i < |ws| => ws[i].numProcessing)
  }

  predicate Can(s: Pool, step: Step) {
    match step
    case Commit(_) => true
    case BrokerEnter => s.broker.Resting?
    case BrokerGet => s.broker.Draining? && s.pipe != []
    case BrokerLeave => s.broker.Draining? && s.pipe == []
    case BrokerRead => s.broker.Scanning? && |s.broker.seen| < |s.workers|
    case BrokerChoose => s.broker.Scanning? && |s.broker.seen| == |s.workers|
    case BrokerAdd => s.broker.Adding? && s.broker.id < |s.workers|
    case BrokerShutdown => s.broker.Resting?
    case BrokerCancel => s.broker.Cancelling?
    case BrokerCheck => s.broker.Waiting?
    case WorkerTakeUp(id) => id < |s.workers| && s.workers[id].drive.Idle? && !s.workers[id].shutdown.Done?
    case WorkerTick(id, _) =>
      id < |s.workers| && s.workers[id].drive.Driving? && s.workers[id].drive.pos < |s.workers[id].procs|
    case WorkerErase(id) =>
      id < |s.workers| && s.workers[id].drive.Retiring? && s.workers[id].drive.pos < |s.workers[id].procs|
    case WorkerReturn(id) =>
      id < |s.workers| && s.workers[id].drive.Driving? && s.workers[id].drive.pos == |s.workers[id].procs|
    case WorkerShutdown(id) =>
      id < |s.workers| && s.workers[id].drive.Idle? && s.workers[id].cancelled && s.workers[id].shutdown.Off?
  }

  /** The least load read so far wins, the first one among equals. */
  function Better(seen: seq<int>, selected: nat, load: int): nat {
    if selected < |seen| && load >= seen[selected] then selected else |seen|
  }

  function Removed(procs: seq<nat>, pos: nat): seq<nat>
    requires pos < |procs|
  {
    procs[..pos] + procs[pos + 1..]
  }

  function DoWorker(w: Worker, step: Step): Worker
    requires step.WorkerTakeUp? || step.WorkerTick? || step.WorkerErase? || step.WorkerReturn? || step.WorkerShutdown?
    requires step.WorkerErase? ==> w.drive.Retiring? && w.drive.pos < |w.procs|
    requires step.WorkerTick? ==> w.drive.Driving?
  {
    match step
    case WorkerTakeUp(_) => w.(procs := w.procs + w.requests, requests := [], drive := Driving(0))
    case WorkerTick(_, progress) =>
      if progress then w.(drive := Driving(w.drive.pos + 1))
      else w.(drive := Retiring(w.drive.pos), numProcessing := w.numProcessing - 1)
    case WorkerErase(_) =>
      w.(finished := w.finished + {w.procs[w.drive.pos]}, numFinished := w.numFinished + 1,
         procs := Removed(w.procs, w.drive.pos), drive := Driving(w.drive.pos))
    case WorkerReturn(_) =>
      w.(drive := Idle, shutdown := if w.shutdown.Off? then Off else if w.procs == [] then Done else Main)
    case WorkerShutdown(_) => w.(shutdown := Start)
  }

  function Do(s: Pool, step: Step): Pool
    requires Can(s, step)
  {
    match step
    case Commit(desired) => s.(pipe := s.pipe + [Req(s.committed, desired)], committed := s.committed + 1)
    case BrokerEnter => s.(broker := Draining)
    case BrokerGet =>
      var req := s.pipe[0];
      s.(pipe := s.pipe[1..],
         broker := if 0 <= req.desired < |s.workers| then Adding(req, req.desired, [])
                   else Scanning(req, [], 0, Loads(s.workers)))
    case BrokerLeave => s.(broker := Resting)
    case BrokerRead =>
      var b := s.broker;
      var load := s.workers[|b.seen|].numProcessing;
      s.(broker := b.(seen := b.seen + [load], selected := Better(b.seen, b.selected, load)))
    case BrokerChoose => s.(broker := Adding(s.broker.req, s.broker.selected, s.broker.atStart))
    case BrokerAdd =>
      var id := s.broker.id;
      var w := s.workers[id];
      s.(workers := s.workers[id := w.(requests := w.requests + [s.broker.req.ticket],
                                       numProcessing := w.numProcessing + 1)],
         log := s.log + [id], broker := Draining)
    case BrokerShutdown => s.(broker := Cancelling(0))
    case BrokerCancel =>
      var i := s.broker.next;
      if i < |s.workers| then
        s.(workers := s.workers[i := s.workers[i].(cancelled := true)], broker := Cancelling(i + 1))
      else s.(broker := Waiting(0))
    case BrokerCheck =>
      var i := s.broker.next;
      s.(broker := if i >= |s.workers| then Positive
                   else if s.workers[i].shutdown.Done? then Waiting(i + 1)
                   else Waiting(0))
    case _ => s.(workers := s.workers[step.id := DoWorker(s.workers[step.id], step)])
  }

  /** The broker has just started its workers. */
  predicate Init(s: Pool) {
    && s.pipe == [] && s.committed == 0 && s.log == [] && s.broker == Resting && |s.workers| > 0
    && forall i :: 0 <= i < |s.workers| ==> s.workers[i] == Worker([], [], Idle, 0, 0, {}, false, Off)
  }

  // ---- invariants

  predicate Increasing(ts: seq<nat>) {
    forall i, j :: 0 <= i < j < |ts| ==> ts[i] < ts[j]
  }

  /** Worker `id` holds exactly the tickets dispatched to it: each one once, either queued in
      dispatch order or finished, and its counters agree. */
  ghost predicate WorkerOk(w: Worker, id: nat, log: seq<nat>) {
    && Increasing(w.procs + w.requests)
    && (forall t :: t in w.procs + w.requests ==> t !in w.finished)
    && (forall t :: t in w.procs + w.requests || t in w.finished <==> 0 <= t < |log| && log[t] == id)
    && w.numProcessing == |w.requests| + |w.procs| - (if w.drive.Retiring? then 1 else 0)
    && w.numFinished == |w.finished|
    && (w.drive.Driving? ==> w.drive.pos <= |w.procs|)
    && (w.drive.Retiring? ==> w.drive.pos < |w.procs|)
    && (!w.shutdown.Off? ==> w.cancelled)
    && (w.shutdown.Main? || (w.shutdown.Start? && !w.drive.Idle?) ==> w.requests == [])
    && (w.shutdown.Done? ==> w.requests == [] && w.procs == [] && w.drive.Idle?)
  }

  predicate ShuttingDown(s: Pool) {
    s.broker.Cancelling? || s.broker.Waiting? || s.broker.Positive?
  }

  predicate HasHand(s: Pool) {
    s.broker.Scanning? || s.broker.Adding?
  }

  /** `selected` is the first of the least loads. */
  predicate FirstMin(loads: seq<int>, selected: nat) {
    && selected < |loads|
    && (forall j :: 0 <= j < |loads| ==> loads[selected] <= loads[j])
    && (forall j :: 0 <= j < selected ==> loads[selected] < loads[j])
  }

  predicate ScanOk(s: Pool)
    requires s.broker.Scanning?
  {
    var b := s.broker;
    && |b.atStart| == |s.workers| && |b.seen| <= |s.workers| && !(0 <= b.req.desired < |s.workers|)
    && (if b.seen == [] then b.selected == 0 else FirstMin(b.seen, b.selected))
    && (forall j :: 0 <= j < |s.workers| ==> s.workers[j].numProcessing <= b.atStart[j])
    && (forall j :: 0 <= j < |b.seen| ==> s.workers[j].numProcessing <= b.seen[j] <= b.atStart[j])
  }

  predicate AddOk(s: Pool)
    requires s.broker.Adding?
  {
    var b := s.broker;
    && b.id < |s.workers|
    && (0 <= b.req.desired < |s.workers| ==> b.id == b.req.desired)
    && (!(0 <= b.req.desired < |s.workers|) ==> |b.atStart| == |s.workers|)
    && (forall j :: 0 <= j < |b.atStart| ==> s.workers[b.id].numProcessing <= b.atStart[j])
  }

  predicate PipeOk(s: Pool) {
    var hand := if HasHand(s) then 1 else 0;
    && s.committed == |s.log| + hand + |s.pipe|
    && (HasHand(s) ==> s.broker.req.ticket == |s.log|)
    && (forall k :: 0 <= k < |s.pipe| ==> s.pipe[k].ticket == |s.log| + hand + k)
  }

  /** The workers the broker has cancelled so far, in the order of the list. */
  function NumCancelled(s: Pool): nat {
    match s.broker
    case Cancelling(next) => if next <= |s.workers| then next else 0
    case Waiting(_) => |s.workers|
    case Positive => |s.workers|
    case _ => 0
  }

  predicate BrokerOk(s: Pool) {
    && (s.broker.Scanning? ==> ScanOk(s))
    && (s.broker.Adding? ==> AddOk(s))
    && (!ShuttingDown(s) ==> forall i :: 0 <= i < |s.workers| ==> !s.workers[i].cancelled)
    && (s.broker.Cancelling? || s.broker.Waiting? ==> s.broker.next <= |s.workers|)
    && (forall i :: 0 <= i < NumCancelled(s) ==> s.workers[i].cancelled)
    && (s.broker.Waiting? ==> forall i :: 0 <= i < s.broker.next ==> s.workers[i].shutdown.Done?)
    && (s.broker.Positive? ==> forall i :: 0 <= i < |s.workers| ==> s.workers[i].shutdown.Done?)
  }

  ghost predicate Inv(s: Pool) {
    && |s.workers| > 0
    && PipeOk(s)
    && (forall t :: 0 <= t < |s.log| ==> s.log[t] < |s.workers|)
    && (forall i :: 0 <= i < |s.workers| ==> WorkerOk(s.workers[i], i, s.log))
    && BrokerOk(s)
  }

  lemma InitInv(s: Pool)
    requires Init(s)
    ensures Inv(s)
  {
  }

  lemma RemovedOk(q: seq<nat>, pos: nat)
    requires pos < |q| && Increasing(q)
    ensures Increasing(Removed(q, pos))
    ensures forall t :: t in Removed(q, pos) <==> t in q && t != q[pos]
  {
    var r := Removed(q, pos);
    forall t | t in q && t != q[pos] ensures t in r {
      var k :| 0 <= k < |q| && q[k] == t;
      assert t == r[if k < pos then k else k - 1];
    }
  }

  lemma EraseOk(w: Worker, id: nat, log: seq<nat>)
    requires WorkerOk(w, id, log) && w.drive.Retiring?
    ensures WorkerOk(DoWorker(w, WorkerErase(id)), id, log)
  {
    var pos := w.drive.pos;
    var q := w.procs + w.requests;
    RemovedOk(q, pos);
    assert Removed(w.procs, pos) + w.requests == Removed(q, pos);
    assert w.procs[pos] == q[pos] && q[pos] in q;
    var v := DoWorker(w, WorkerErase(id));
    forall t ensures t in v.procs + v.requests || t in v.finished <==> 0 <= t < |log| && log[t] == id {
      assert t in v.procs + v.requests <==> t in q && t != q[pos];
    }
  }

  lemma TakeUpOk(w: Worker, id: nat, log: seq<nat>)
    requires WorkerOk(w, id, log) && w.drive.Idle? && !w.shutdown.Done?
    ensures WorkerOk(DoWorker(w, WorkerTakeUp(id)), id, log)
  {
    assert (w.procs + w.requests) + [] == w.procs + w.requests;
  }

  predicate IsWorkerStep(step: Step) {
    step.WorkerTakeUp? || step.WorkerTick? || step.WorkerErase? || step.WorkerReturn? || step.WorkerShutdown?
  }

  lemma WorkerStepOk(s: Pool, step: Step)
    requires Inv(s) && Can(s, step) && IsWorkerStep(step)
    ensures var w, v := s.workers[step.id], Do(s, step).workers[step.id];
            && WorkerOk(v, step.id, s.log)
            && v.numProcessing <= w.numProcessing
            && v.cancelled == w.cancelled
            && (w.shutdown.Done? ==> v.shutdown.Done?)
  {
    var w := s.workers[step.id];
    assert WorkerOk(w, step.id, s.log);
    match step
    case WorkerErase(_) =>
      hide WorkerOk;
      EraseOk(w, step.id, s.log);
    case WorkerTakeUp(_) =>
      hide WorkerOk;
      TakeUpOk(w, step.id, s.log);
    case _ =>
  }

  lemma WorkerStepInv(s: Pool, step: Step)
    requires Inv(s) && Can(s, step) && IsWorkerStep(step)
    ensures Inv(Do(s, step))
  {
    hide WorkerOk, DoWorker, BrokerOk;
    WorkerStepOk(s, step);
    WorkerStepBroker(s, step);
    var r := Do(s, step);
    assert r.workers == s.workers[step.id := r.workers[step.id]];
    forall i | 0 <= i < |r.workers| ensures WorkerOk(r.workers[i], i, r.log) {
      assert WorkerOk(s.workers[i], i, s.log);
    }
  }

  lemma WorkerStepBroker(s: Pool, step: Step)
    requires Inv(s) && Can(s, step) && IsWorkerStep(step)
    ensures BrokerOk(Do(s, step))
  {
    hide WorkerOk, PipeOk, BrokerOk, DoWorker;
    WorkerStepOk(s, step);
    BrokerFollows(s, Do(s, step));
  }

  /** The broker does not mind loads that shrink and workers that get done. */
  lemma BrokerFollows(s: Pool, r: Pool)
    requires BrokerOk(s) && r.broker == s.broker && |r.workers| == |s.workers|
    requires forall i :: 0 <= i < |s.workers| ==>
               && r.workers[i].numProcessing <= s.workers[i].numProcessing
               && r.workers[i].cancelled == s.workers[i].cancelled
               && (s.workers[i].shutdown.Done? ==> r.workers[i].shutdown.Done?)
    ensures BrokerOk(r)
  {
    hide FirstMin;
  }

  lemma Appended(q: seq<nat>, x: nat)
    requires Increasing(q) && forall t :: t in q ==> t < x
    ensures Increasing(q + [x])
    ensures forall t :: t in q + [x] <==> t in q || t == x
  {
    forall k | 0 <= k < |q| ensures q[k] < x {
      assert q[k] in q;
    }
  }

  /** Handing over a ticket: the new one is behind all that the worker was given before. */
  lemma AddWorkerOk(w: Worker, id: nat, log: seq<nat>)
    requires WorkerOk(w, id, log) && w.shutdown.Off?
    ensures WorkerOk(w.(requests := w.requests + [|log|], numProcessing := w.numProcessing + 1), id, log + [id])
  {
    var q := w.procs + w.requests;
    Appended(q, |log|);
    hide Increasing;
    var v := w.(requests := w.requests + [|log|], numProcessing := w.numProcessing + 1);
    assert v.procs + v.requests == q + [|log|];
    forall t ensures t in q + [|log|] || t in v.finished <==> 0 <= t < |log + [id]| && (log + [id])[t] == id {
    }
  }

  lemma OtherWorkerOk(w: Worker, i: nat, log: seq<nat>, id: nat)
    requires WorkerOk(w, i, log) && id != i
    ensures WorkerOk(w, i, log + [id])
  {
    forall t ensures t in w.procs + w.requests || t in w.finished <==> 0 <= t < |log + [id]| && (log + [id])[t] == i {
    }
  }

  lemma AddInv(s: Pool)
    requires Inv(s) && Can(s, BrokerAdd)
    ensures Inv(Do(s, BrokerAdd))
  {
    var id := s.broker.id;
    var r := Do(s, BrokerAdd);
    assert WorkerOk(s.workers[id], id, s.log);
    AddWorkerOk(s.workers[id], id, s.log);
    hide WorkerOk;
    forall i | 0 <= i < |r.workers| ensures WorkerOk(r.workers[i], i, r.log) {
      assert WorkerOk(s.workers[i], i, s.log);
      if i != id {
        OtherWorkerOk(s.workers[i], i, s.log, id);
      }
    }
  }

  lemma BetterIsFirstMin(seen: seq<int>, selected: nat, load: int)
    requires seen == [] || FirstMin(seen, selected)
    requires seen == [] ==> selected == 0
    ensures FirstMin(seen + [load], Better(seen, selected, load))
  {
  }

  lemma BrokerStepInv(s: Pool, step: Step)
    requires Inv(s) && Can(s, step) && !IsWorkerStep(step) && !step.BrokerAdd?
    ensures Inv(Do(s, step))
  {
    hide WorkerOk, Better, FirstMin;
    match step
    case BrokerRead => ReadInv(s);
    case BrokerChoose => ChooseInv(s);
    case BrokerCancel => CancelInv(s);
    case _ =>
  }

  lemma ReadInv(s: Pool)
    requires Inv(s) && Can(s, BrokerRead)
    ensures Inv(Do(s, BrokerRead))
  {
    hide WorkerOk, Better, FirstMin;
    BetterIsFirstMin(s.broker.seen, s.broker.selected, s.workers[|s.broker.seen|].numProcessing);
  }

  lemma ChooseInv(s: Pool)
    requires Inv(s) && Can(s, BrokerChoose)
    ensures Inv(Do(s, BrokerChoose))
  {
    hide WorkerOk;
  }

  lemma CancelInv(s: Pool)
    requires Inv(s) && Can(s, BrokerCancel)
    ensures Inv(Do(s, BrokerCancel))
  {
    hide WorkerOk;
    var r := Do(s, BrokerCancel);
    forall i | 0 <= i < |r.workers| ensures WorkerOk(r.workers[i], i, r.log) {
      assert WorkerOk(s.workers[i], i, s.log);
      CancelOk(s.workers[i], i, s.log);
    }
  }

  lemma CancelOk(w: Worker, i: nat, log: seq<nat>)
    requires WorkerOk(w, i, log)
    ensures WorkerOk(w.(cancelled := true), i, log)
  {
  }

  lemma StepInv(s: Pool, step: Step)
    requires Inv(s) && Can(s, step)
    ensures Inv(Do(s, step))
  {
    if IsWorkerStep(step) {
      WorkerStepInv(s, step);
    } else if step.BrokerAdd? {
      AddInv(s);
    } else {
      BrokerStepInv(s, step);
    }
  }
}
