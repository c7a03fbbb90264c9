/** What every run of the thread pool keeps. */
module ThreadPoolLaws {
  import opened ThreadPool

  // ---- runs

  predicate CanRun(s: Pool, steps: seq<Step>)
    decreases |steps|
  {
    steps == [] || (Can(s, steps[0]) && CanRun(Do(s, steps[0]), steps[1..]))
  }

  function RunOf(s: Pool, steps: seq<Step>): Pool
    requires CanRun(s, steps)
    decreases |steps|
  {
    if steps == [] then s else RunOf(Do(s, steps[0]), steps[1..])
  }

  lemma {:induction false} RunInv(s: Pool, steps: seq<Step>)
    requires Inv(s) && CanRun(s, steps)
    ensures Inv(RunOf(s, steps))
    decreases |steps|
  {
    hide Inv, Do, Can;
    if steps != [] {
      StepInv(s, steps[0]);
      RunInv(Do(s, steps[0]), steps[1..]);
    }
  }

  // ---- conservation

  datatype Place = InPipe(k: nat) | InHand | Requested(id: nat, k: nat) | Driven(id: nat, k: nat) | Finished(id: nat)

  predicate At(s: Pool, t: nat, p: Place) {
    match p
    case InPipe(k) => k < |s.pipe| && s.pipe[k].ticket == t
    case InHand => HasHand(s) && s.broker.req.ticket == t
    case Requested(id, k) => id < |s.workers| && k < |s.workers[id].requests| && s.workers[id].requests[k] == t
    case Driven(id, k) => id < |s.workers| && k < |s.workers[id].procs| && s.workers[id].procs[k] == t
    case Finished(id) => id < |s.workers| && t in s.workers[id].finished
  }

  lemma WorkerPlaceUnique(w: Worker, id: nat, log: seq<nat>, t: nat)
    requires WorkerOk(w, id, log)
    ensures forall k :: 0 <= k < |w.requests| && w.requests[k] == t ==> t !in w.finished && t !in w.procs
    ensures forall k :: 0 <= k < |w.procs| && w.procs[k] == t ==> t !in w.finished && t !in w.requests
    ensures forall j, k :: 0 <= j < k < |w.requests| ==> w.requests[j] != w.requests[k]
    ensures forall j, k :: 0 <= j < k < |w.procs| ==> w.procs[j] != w.procs[k]
    ensures t in w.procs || t in w.requests || t in w.finished ==> t < |log| && log[t] == id
    ensures t < |log| && log[t] == id ==> t in w.procs || t in w.requests || t in w.finished
  {
    var q := w.procs + w.requests;
    forall j, k | 0 <= j < |w.procs| && 0 <= k < |w.requests| ensures w.procs[j] != w.requests[k] {
      assert q[j] == w.procs[j] && q[|w.procs| + k] == w.requests[k];
    }
    forall j, k | 0 <= j < k < |w.requests| ensures w.requests[j] != w.requests[k] {
      assert q[|w.procs| + j] < q[|w.procs| + k];
    }
    forall j, k | 0 <= j < k < |w.procs| ensures w.procs[j] != w.procs[k] {
      assert q[j] < q[k];
    }
    forall k | 0 <= k < |w.requests| ensures w.requests[k] in q {
      assert q[|w.procs| + k] == w.requests[k];
    }
  }

  /** Every committed process is in exactly one place: the pipe, the broker's hand, the request
      list or the drive list of the worker it was dispatched to, or finished by that worker. */
  lemma ExactlyOnePlace(s: Pool, t: nat)
    requires Inv(s) && t < s.committed
    ensures exists p :: At(s, t, p) && forall q :: At(s, t, q) ==> q == p
  {
    hide Inv;
    var p := ThePlace(s, t);
  }

  lemma ThePlace(s: Pool, t: nat) returns (p: Place)
    requires Inv(s) && t < s.committed
    ensures At(s, t, p)
    ensures forall q :: At(s, t, q) ==> q == p
  {
    hide WorkerOk, BrokerOk;
    var hand := if HasHand(s) then 1 else 0;
    if t < |s.log| {
      var w := s.workers[s.log[t]];
      WorkerPlaceUnique(w, s.log[t], s.log, t);
      if t in w.finished {
        p := Finished(s.log[t]);
      } else if t in w.procs {
        var k :| 0 <= k < |w.procs| && w.procs[k] == t;
        p := Driven(s.log[t], k);
      } else {
        var k :| 0 <= k < |w.requests| && w.requests[k] == t;
        p := Requested(s.log[t], k);
      }
      forall q | At(s, t, q) ensures q == p {
        OnlyItsWorker(s, t, q);
      }
    } else {
      p := if t == |s.log| && HasHand(s) then InHand else InPipe(t - |s.log| - hand);
      forall q | At(s, t, q) ensures q == p {
        if !q.InPipe? && !q.InHand? {
          WorkerPlaceUnique(s.workers[q.id], q.id, s.log, t);
        }
      }
    }
  }

  lemma OnlyItsWorker(s: Pool, t: nat, q: Place)
    requires Inv(s) && t < |s.log| && At(s, t, q)
    ensures !q.InPipe? && !q.InHand? && q.id == s.log[t]
  {
    hide WorkerOk, BrokerOk;
    if !q.InPipe? && !q.InHand? {
      WorkerPlaceUnique(s.workers[q.id], q.id, s.log, t);
    }
  }

  /** Nothing that was not committed shows up anywhere. */
  lemma NothingElse(s: Pool, t: nat, p: Place)
    requires Inv(s) && At(s, t, p)
    ensures t < s.committed
  {
    hide WorkerOk, BrokerOk;
    if !p.InPipe? && !p.InHand? {
      WorkerPlaceUnique(s.workers[p.id], p.id, s.log, t);
    }
  }

  // ---- counters

  ghost function Dispatched(log: seq<nat>, id: nat): set<nat> {
    set t | 0 <= t < |log| && log[t] == id
  }

  ghost function Members(q: seq<nat>): set<nat> {
    set t | t in q
  }

  lemma {:induction false} SizeOfIncreasing(q: seq<nat>)
    requires Increasing(q)
    ensures |Members(q)| == |q|
  {
    if q != [] {
      var n := |q| - 1;
      SizeOfIncreasing(q[..n]);
      assert q[n] !in Members(q[..n]);
      forall t ensures t in Members(q) <==> t in Members(q[..n]) + {q[n]} {
        assert q == q[..n] + [q[n]];
      }
      assert Members(q) == Members(q[..n]) + {q[n]};
    }
  }

  /** A worker's counters: between two ticks of its list it counts what it holds, and together
      with what it finished this is what it was ever given. */
  lemma CountersAgree(s: Pool, id: nat)
    requires Inv(s) && id < |s.workers| && !s.workers[id].drive.Retiring?
    ensures var w := s.workers[id];
            && w.numProcessing == |w.requests| + |w.procs|
            && |Dispatched(s.log, id)| == w.numProcessing + w.numFinished
  {
    hide BrokerOk, PipeOk;
    var w := s.workers[id];
    assert WorkerOk(w, id, s.log);
    var q := w.procs + w.requests;
    SizeOfIncreasing(q);
    assert Dispatched(s.log, id) == Members(q) + w.finished;
    assert Members(q) !! w.finished;
    assert |Members(q) + w.finished| == |Members(q)| + |w.finished|;
  }

  // ---- dispatch quality

  predicate NoAdd(steps: seq<Step>) {
    forall k :: 0 <= k < |steps| ==> !steps[k].BrokerAdd?
  }

  function StartLoads(s: Pool): seq<int>
    requires HasHand(s)
  {
    s.broker.atStart
  }

  lemma {:induction false} StartLoadsKept(s: Pool, steps: seq<Step>)
    requires HasHand(s) && CanRun(s, steps) && NoAdd(steps)
    ensures HasHand(RunOf(s, steps)) && StartLoads(RunOf(s, steps)) == StartLoads(s)
    ensures RunOf(s, steps).broker.req == s.broker.req && |RunOf(s, steps).workers| == |s.workers|
    decreases |steps|
  {
    if steps != [] {
      StartLoadsKept(Do(s, steps[0]), steps[1..]);
    }
  }

  /** Whatever the workers do during the scan, the chosen worker's load just before the request is
      handed over is at most every worker's load when the scan began. */
  lemma DispatchQuality(s: Pool, steps: seq<Step>)
    requires Inv(s) && Can(s, BrokerGet) && !(0 <= s.pipe[0].desired < |s.workers|)
    requires NoAdd(steps) && CanRun(Do(s, BrokerGet), steps)
    ensures var r := RunOf(Do(s, BrokerGet), steps);
            Can(r, BrokerAdd) ==>
              && r.broker.req == s.pipe[0]
              && r.broker.id < |r.workers| == |s.workers|
              && forall j :: 0 <= j < |s.workers| ==> r.workers[r.broker.id].numProcessing <= s.workers[j].numProcessing
  {
    var g := Do(s, BrokerGet);
    StepInv(s, BrokerGet);
    RunInv(g, steps);
    StartLoadsKept(g, steps);
  }

  /** A desired worker is respected. */
  lemma DesiredKept(s: Pool, steps: seq<Step>)
    requires Inv(s) && Can(s, BrokerGet) && 0 <= s.pipe[0].desired < |s.workers|
    requires NoAdd(steps) && CanRun(Do(s, BrokerGet), steps)
    ensures var r := RunOf(Do(s, BrokerGet), steps);
            Can(r, BrokerAdd) ==> r.broker.id == s.pipe[0].desired
  {
    var g := Do(s, BrokerGet);
    StepInv(s, BrokerGet);
    RunInv(g, steps);
    StartLoadsKept(g, steps);
  }

  /** The worker that request t wants, or has got. */
  predicate Wants(s: Pool, t: nat, id: nat) {
    var first := |s.log| + if HasHand(s) then 1 else 0;
    && t < s.committed
    && if t < |s.log| then s.log[t] == id
       else if t < first then HasHand(s) && s.broker.req.desired == id
       else t - first < |s.pipe| && s.pipe[t - first].desired == id
  }

  lemma WantsOn(s: Pool, step: Step, t: nat, id: nat)
    requires Inv(s) && Can(s, step) && Wants(s, t, id) && id < |s.workers|
    ensures Wants(Do(s, step), t, id) && |Do(s, step).workers| == |s.workers|
  {
    hide WorkerOk, FirstMin;
  }

  lemma {:induction false} WantsAlways(s: Pool, steps: seq<Step>, t: nat, id: nat)
    requires Inv(s) && CanRun(s, steps) && Wants(s, t, id) && id < |s.workers|
    ensures Wants(RunOf(s, steps), t, id)
    decreases |steps|
  {
    hide Inv, Can, Do, Wants;
    if steps != [] {
      WantsOn(s, steps[0], t, id);
      StepInv(s, steps[0]);
      WantsAlways(Do(s, steps[0]), steps[1..], t, id);
    }
  }

  /** In every run, a process that was committed for a worker goes to that worker if it goes anywhere. */
  lemma DesiredAlways(s: Pool, id: nat, steps: seq<Step>)
    requires Inv(s) && id < |s.workers| && CanRun(Do(s, Commit(id)), steps)
    ensures var t, r := s.committed, RunOf(Do(s, Commit(id)), steps);
            t < r.committed && (t < |r.log| ==> r.log[t] == id)
  {
    hide WorkerOk, BrokerOk;
    StepInv(s, Commit(id));
    WantsAlways(Do(s, Commit(id)), steps, s.committed, id);
  }

  // ---- shutdown

  /** Once the broker's shutdown has returned Positive, every worker is empty and every process
      that is not left in the pipe is finished. */
  lemma ShutdownDrains(s: Pool)
    requires Inv(s) && s.broker.Positive?
    ensures forall i :: 0 <= i < |s.workers| ==>
              s.workers[i].requests == [] && s.workers[i].procs == [] && s.workers[i].numProcessing == 0
    ensures forall t :: 0 <= t < |s.log| ==> s.log[t] < |s.workers| && t in s.workers[s.log[t]].finished
    ensures s.committed == |s.log| + |s.pipe|
  {
    forall i | 0 <= i < |s.workers|
      ensures s.workers[i].requests == [] && s.workers[i].procs == [] && s.workers[i].numProcessing == 0
    {
      assert WorkerOk(s.workers[i], i, s.log);
    }
    forall t | 0 <= t < |s.log| ensures t in s.workers[s.log[t]].finished {
      assert WorkerOk(s.workers[s.log[t]], s.log[t], s.log);
    }
  }

  /** From the moment the broker is told to shut down, the pipe only grows and nothing is dispatched. */
  lemma {:induction false} PipeStays(s: Pool, steps: seq<Step>)
    requires ShuttingDown(s) && CanRun(s, steps)
    ensures var r := RunOf(s, steps);
            ShuttingDown(r) && s.pipe <= r.pipe && r.log == s.log
    decreases |steps|
  {
    if steps != [] {
      var n := Do(s, steps[0]);
      PipeStays(n, steps[1..]);
    }
  }

  // ---- an undisturbed broker

  function Reads(n: nat): (steps: seq<Step>)
    ensures |steps| == n && forall k :: 0 <= k < n ==> steps[k] == BrokerRead
  {
    seq(n, _ => BrokerRead)
  }

  lemma ReadAlone(s: Pool)
    requires Inv(s) && s.broker.Scanning? && |s.broker.seen| < |s.workers|
    requires s.broker.seen == Loads(s.workers)[..|s.broker.seen|]
    ensures Can(s, BrokerRead)
    ensures var t := Do(s, BrokerRead);
            && Inv(t) && t.broker.Scanning? && |t.broker.seen| == |s.broker.seen| + 1
            && t.broker.seen == Loads(s.workers)[..|t.broker.seen|]
            && t == s.(broker := s.broker.(seen := t.broker.seen, selected := t.broker.selected))
  {
    StepInv(s, BrokerRead);
    hide Inv;
  }

  /** A scan without interference reads the loads as they are. */
  lemma {:induction false} ScanAlone(s: Pool, n: nat)
    requires Inv(s) && s.broker.Scanning? && |s.broker.seen| + n == |s.workers|
    requires s.broker.seen == Loads(s.workers)[..|s.broker.seen|]
    ensures CanRun(s, Reads(n))
    ensures var r := RunOf(s, Reads(n));
            && r.broker.Scanning? && r.broker.seen == Loads(s.workers)
            && r == s.(broker := s.broker.(seen := r.broker.seen, selected := r.broker.selected))
            && Inv(r)
    decreases n
  {
    hide Inv, Do, Can;
    if n == 0 {
      assert Loads(s.workers)[..|s.broker.seen|] == Loads(s.workers);
    } else {
      ReadAlone(s);
      ScanAlone(Do(s, BrokerRead), n - 1);
      assert Reads(n)[1..] == Reads(n - 1);
    }
  }

  lemma {:induction false} RunConcat(s: Pool, a: seq<Step>, b: seq<Step>)
    requires CanRun(s, a) && CanRun(RunOf(s, a), b)
    ensures CanRun(s, a + b) && RunOf(s, a + b) == RunOf(RunOf(s, a), b)
    decreases |a|
  {
    hide Can, Do;
    if a == [] {
      assert a + b == b;
    } else {
      assert (a + b)[1..] == a[1..] + b;
      RunConcat(Do(s, a[0]), a[1..], b);
    }
  }

  /** One more step of a run. */
  lemma RunOn(start: Pool, trace: seq<Step>, step: Step)
    requires Inv(start) && CanRun(start, trace) && Can(RunOf(start, trace), step)
    ensures CanRun(start, trace + [step])
    ensures RunOf(start, trace + [step]) == Do(RunOf(start, trace), step)
    ensures Inv(Do(RunOf(start, trace), step))
  {
    RunInv(start, trace);
    StepInv(RunOf(start, trace), step);
    hide Can, Do, Inv;
    var s := RunOf(start, trace);
    assert [step][1..] == [];
    assert CanRun(s, [step]) && RunOf(s, [step]) == Do(s, step) by {
      NoSteps(Do(s, step));
    }
    RunConcat(start, trace, [step]);
  }

  /** The broker's steps for one request on w workers. */
  function DispatchSteps(w: nat): seq<Step> {
    [BrokerGet] + (Reads(w) + [BrokerChoose, BrokerAdd])
  }

  predicate Undesired(s: Pool, k: nat)
    requires k <= |s.pipe|
  {
    forall i :: 0 <= i < k ==> !(0 <= s.pipe[i].desired < |s.workers|)
  }

  predicate Dispatches(s: Pool, r: Pool, selected: nat) {
    && s.broker.Draining? && s.pipe != [] && r.broker.Draining?
    && selected < |s.workers| == |r.workers|
    && Loads(r.workers) == Loads(s.workers)[selected := Loads(s.workers)[selected] + 1]
    && r.log == s.log + [selected]
    && r.pipe == s.pipe[1..]
  }

  const HAND_OVER := [BrokerChoose, BrokerAdd]

  lemma HandOver(t: Pool)
    requires Inv(t) && t.broker.Scanning? && t.broker.seen == Loads(t.workers)
    ensures CanRun(t, HAND_OVER)
    ensures var r := RunOf(t, HAND_OVER); var id := t.broker.selected;
            && Inv(r) && r.broker.Draining? && FirstMin(Loads(t.workers), id)
            && id < |r.workers| == |t.workers|
            && Loads(r.workers) == Loads(t.workers)[id := Loads(t.workers)[id] + 1]
            && r.log == t.log + [id] && r.pipe == t.pipe
  {
    hide WorkerOk, PipeOk;
    var c := Do(t, BrokerChoose);
    StepInv(t, BrokerChoose);
    StepInv(c, BrokerAdd);
    assert HAND_OVER[1..] == [BrokerAdd] && [BrokerAdd][1..] == [];
    assert CanRun(c, [BrokerAdd]) && RunOf(c, [BrokerAdd]) == Do(c, BrokerAdd);
  }

  lemma GetAlone(s: Pool)
    requires Inv(s) && s.broker.Draining? && s.pipe != [] && Undesired(s, 1)
    ensures Can(s, BrokerGet)
    ensures var g := Do(s, BrokerGet);
            && Inv(g) && g.broker.Scanning? && g.broker.seen == []
            && g.workers == s.workers && g.log == s.log && g.pipe == s.pipe[1..]
  {
    StepInv(s, BrokerGet);
    hide Inv;
  }

  /** One request without interference goes to the first of the least loaded workers. */
  lemma DispatchAlone(s: Pool)
    requires Inv(s) && s.broker.Draining? && s.pipe != [] && Undesired(s, 1)
    ensures CanRun(s, DispatchSteps(|s.workers|))
    ensures var r := RunOf(s, DispatchSteps(|s.workers|));
            && Inv(r) && r.broker.Draining? && |r.log| == |s.log| + 1
            && FirstMin(Loads(s.workers), r.log[|s.log|])
            && Dispatches(s, r, r.log[|s.log|])
  {
    hide Inv, Do, Can, Reads, FirstMin;
    GetAlone(s);
    var g := Do(s, BrokerGet);
    ScanAlone(g, |s.workers|);
    var t := RunOf(g, Reads(|s.workers|));
    HandOver(t);
    RunConcat(g, Reads(|s.workers|), HAND_OVER);
    var steps := DispatchSteps(|s.workers|);
    assert steps[0] == BrokerGet && steps[1..] == Reads(|s.workers|) + HAND_OVER;
  }

  lemma NoSteps(s: Pool)
    ensures CanRun(s, []) && RunOf(s, []) == s
  {
  }
}
