/** Runs in which no worker retires a process and nobody desires a worker: the loads stay balanced, and
    from equal loads the requests go round, whatever else happens and in whatever order. */
module ThreadPoolRounds {
  import opened ThreadPool
  import opened ThreadPoolLaws

  // ---- round robin

  /** Loads after some rounds: the first r workers are one ahead. */
  function Spread(w: nat, level: int, r: nat): (loads: seq<int>)
    ensures |loads| == w && forall j :: 0 <= j < w ==> loads[j] == if j < r then level + 1 else level
  {
    seq(w, j => if j < r then level + 1 else level)
  }

  lemma SpreadStep(w: nat, level: int, r: nat, selected: nat)
    requires r < w && FirstMin(Spread(w, level, r), selected)
    ensures selected == r
    ensures Spread(w, level, r)[r := level + 1]
         == if r + 1 < w then Spread(w, level, r + 1) else Spread(w, level + 1, 0)
  {
    assert Spread(w, level, r)[selected] <= Spread(w, level, r)[r];
  }

  predicate Balanced(loads: seq<int>) {
    forall i, j :: 0 <= i < |loads| && 0 <= j < |loads| ==> loads[i] <= loads[j] + 1
  }

  /** One more process on the least loaded worker keeps the loads within one of each other. */
  lemma OneMore(loads: seq<int>, selected: nat)
    requires Balanced(loads) && FirstMin(loads, selected)
    ensures Balanced(loads[selected := loads[selected] + 1])
  {
  }

  function Rounds(w: nat, k: nat): (steps: seq<Step>)
    decreases k
  {
    if k == 0 then [] else DispatchSteps(w) + Rounds(w, k - 1)
  }

  function After(w: nat, r: nat): nat {
    if r + 1 < w then r + 1 else 0
  }

  /** The worker whose turn it is t requests after worker r. */
  function Turn(w: nat, r: nat, t: nat): nat
    decreases t
  {
    if t == 0 then r else Turn(w, After(w, r), t - 1)
  }

  function Turns(w: nat, r: nat, k: nat): (ids: seq<nat>)
    ensures |ids| == k && forall t :: 0 <= t < k ==> ids[t] == Turn(w, r, t)
  {
    seq(k, t requires 0 <= t => Turn(w, r, t))
  }

  lemma MulGap(d: int, w: int)
    requires w >= 0
    ensures d == 0 || d * w >= w || d * w <= -w
  {
    if d > 0 {
      assert (d - 1) * w >= 0;
    } else if d < 0 {
      assert (-d - 1) * w >= 0;
    }
  }

  lemma ModUnique(x: nat, w: nat, q: int, m: nat)
    requires m < w && x == q * w + m
    ensures x % w == m
  {
    var d := q - x / w;
    assert d * w == x % w - m;
    MulGap(d, w);
  }

  lemma {:induction false} TurnIsMod(w: nat, r: nat, t: nat)
    requires r < w
    ensures Turn(w, r, t) == (r + t) % w
    decreases t
  {
    if t == 0 {
      ModUnique(r, w, 0, r);
    } else {
      TurnIsMod(w, After(w, r), t - 1);
      if r + 1 == w {
        var q, m := (t - 1) / w, (t - 1) % w;
        assert (q + 1) * w == q * w + w;
        ModUnique(r + t, w, q + 1, m);
      }
    }
  }

  lemma {:induction false} UndisturbedTurns(s: Pool, k: nat, level: int, r: nat)
    requires Inv(s) && s.broker.Draining? && k <= |s.pipe| && Undesired(s, k)
    requires r < |s.workers| && Loads(s.workers) == Spread(|s.workers|, level, r)
    ensures CanRun(s, Rounds(|s.workers|, k))
    ensures RunOf(s, Rounds(|s.workers|, k)).log == s.log + Turns(|s.workers|, r, k)
    decreases k
  {
    hide Inv, DispatchSteps, CanRun, RunOf, Can, Do, FirstMin;
    var w := |s.workers|;
    if k == 0 {
      NoSteps(s);
    } else {
      DispatchAlone(s);
      var n := RunOf(s, DispatchSteps(w));
      SpreadStep(w, level, r, n.log[|s.log|]);
      assert Undesired(n, k - 1) by {
        forall i | 0 <= i < k - 1 ensures !(0 <= n.pipe[i].desired < |n.workers|) {
          assert n.pipe[i] == s.pipe[i + 1];
        }
      }
      UndisturbedTurns(n, k - 1, if r + 1 < w then level else level + 1, After(w, r));
      RunConcat(s, DispatchSteps(w), Rounds(w, k - 1));
      assert Turns(w, r, k) == [r] + Turns(w, After(w, r), k - 1);
    }
  }

  // ---- any run without retirements

  /** No retirement and no desired worker. */
  predicate Calm(step: Step, w: nat) {
    match step
    case WorkerTick(_, progress) => progress
    case Commit(desired) => !(0 <= desired < w)
    case _ => true
  }

  predicate AllCalm(steps: seq<Step>, w: nat) {
    forall k :: 0 <= k < |steps| ==> Calm(steps[k], w)
  }

  /** What the broker has in its hand is up to date. */
  predicate Steady(s: Pool) {
    && Undesired(s, |s.pipe|)
    && (s.broker.Scanning? ==>
          |s.broker.seen| <= |s.workers| && s.broker.seen == Loads(s.workers)[..|s.broker.seen|])
    && (s.broker.Adding? ==> FirstMin(Loads(s.workers), s.broker.id))
  }

  /** Only a hand-over changes the loads, and it goes to the first of the least loaded workers. */
  lemma CalmStep(s: Pool, step: Step)
    requires Inv(s) && Steady(s) && Can(s, step) && Calm(step, |s.workers|)
    ensures var e := Do(s, step);
            && |e.workers| == |s.workers| && Steady(e)
            && if step.BrokerAdd? then
                 && s.broker.Adding? && FirstMin(Loads(s.workers), s.broker.id)
                 && e.log == s.log + [s.broker.id]
                 && Loads(e.workers) == Loads(s.workers)[s.broker.id := Loads(s.workers)[s.broker.id] + 1]
               else e.log == s.log && Loads(e.workers) == Loads(s.workers)
  {
    hide WorkerOk, PipeOk;
    if IsWorkerStep(step) {
      CalmWorker(s, step);
    } else if step.BrokerAdd? {
      CalmAdd(s);
    } else {
      CalmBroker(s, step);
    }
  }

  lemma CalmWorker(s: Pool, step: Step)
    requires Inv(s) && Steady(s) && Can(s, step) && IsWorkerStep(step) && Calm(step, |s.workers|)
    ensures var e := Do(s, step);
            |e.workers| == |s.workers| && Steady(e) && e.log == s.log && Loads(e.workers) == Loads(s.workers)
  {
    hide WorkerOk, PipeOk, BrokerOk, FirstMin;
    var e := Do(s, step);
    assert Loads(e.workers) == Loads(s.workers);
  }

  lemma CalmAdd(s: Pool)
    requires Inv(s) && Steady(s) && Can(s, BrokerAdd)
    ensures var e := Do(s, BrokerAdd);
            && |e.workers| == |s.workers| && Steady(e) && e.log == s.log + [s.broker.id]
            && Loads(e.workers) == Loads(s.workers)[s.broker.id := Loads(s.workers)[s.broker.id] + 1]
  {
    hide WorkerOk, PipeOk, BrokerOk, FirstMin;
  }

  lemma CalmBroker(s: Pool, step: Step)
    requires Inv(s) && Steady(s) && Can(s, step) && !IsWorkerStep(step) && !step.BrokerAdd? && Calm(step, |s.workers|)
    ensures var e := Do(s, step);
            |e.workers| == |s.workers| && Steady(e) && e.log == s.log && Loads(e.workers) == Loads(s.workers)
  {
    hide WorkerOk, PipeOk;
    var e := Do(s, step);
    match step
    case BrokerChoose =>
      assert Loads(s.workers)[..|s.broker.seen|] == Loads(s.workers);
    case BrokerCancel =>
      assert Loads(e.workers) == Loads(s.workers);
    case _ =>
  }

  lemma {:induction false} CalmBalanced(s: Pool, steps: seq<Step>)
    requires Inv(s) && Steady(s) && CanRun(s, steps) && AllCalm(steps, |s.workers|)
    requires Balanced(Loads(s.workers))
    ensures Balanced(Loads(RunOf(s, steps).workers))
    decreases |steps|
  {
    hide Inv, Can, Do, Steady, Balanced, FirstMin, Calm;
    if steps != [] {
      CalmStep(s, steps[0]);
      StepInv(s, steps[0]);
      if steps[0].BrokerAdd? {
        OneMore(Loads(s.workers), s.broker.id);
      }
      CalmBalanced(Do(s, steps[0]), steps[1..]);
    }
  }

  lemma {:induction false} CalmTurns(s: Pool, steps: seq<Step>, level: int, r: nat) returns (k: nat)
    requires Inv(s) && Steady(s) && CanRun(s, steps) && AllCalm(steps, |s.workers|)
    requires r < |s.workers| && Loads(s.workers) == Spread(|s.workers|, level, r)
    ensures RunOf(s, steps).log == s.log + Turns(|s.workers|, r, k)
    decreases |steps|
  {
    hide Inv, Can, Do, Steady, FirstMin, Calm;
    var w := |s.workers|;
    k := 0;
    if steps != [] {
      var e := Do(s, steps[0]);
      CalmStep(s, steps[0]);
      StepInv(s, steps[0]);
      if steps[0].BrokerAdd? {
        SpreadStep(w, level, r, s.broker.id);
        k := CalmTurns(e, steps[1..], if r + 1 < w then level else level + 1, After(w, r));
        assert Turns(w, r, k + 1) == [r] + Turns(w, After(w, r), k);
        k := k + 1;
      } else {
        k := CalmTurns(e, steps[1..], level, r);
      }
    }
  }

  /** A pool whose broker has nothing in its hand and in whose pipe nobody desires a worker. */
  predicate Unclaimed(s: Pool) {
    !HasHand(s) && Undesired(s, |s.pipe|)
  }

  /** In every run without retirements and desired workers, loads that differ by at most one stay so. */
  lemma BalancedStays(s: Pool, steps: seq<Step>)
    requires Inv(s) && Unclaimed(s) && CanRun(s, steps) && AllCalm(steps, |s.workers|)
    requires Balanced(Loads(s.workers))
    ensures Balanced(Loads(RunOf(s, steps).workers))
  {
    hide Inv;
    CalmBalanced(s, steps);
  }

  /** In every such run from equal loads, request t goes to worker t mod w, however the steps of the
      broker, the workers and the committers are interleaved. */
  lemma RoundRobin(s: Pool, steps: seq<Step>, level: int)
    requires Inv(s) && Unclaimed(s) && CanRun(s, steps) && AllCalm(steps, |s.workers|)
    requires forall i :: 0 <= i < |s.workers| ==> s.workers[i].numProcessing == level
    ensures var e := RunOf(s, steps);
            && s.log <= e.log
            && (forall t :: 0 <= t < |e.log| - |s.log| ==> e.log[|s.log| + t] == t % |s.workers|)
            && Balanced(Loads(e.workers))
  {
    hide *;
    EvenStart(s, level);
    CalmBalanced(s, steps);
    var k := CalmTurns(s, steps, level, 0);
    TurnsAreMod(s.log, |s.workers|, k);
  }

  lemma EvenStart(s: Pool, level: int)
    requires Inv(s) && Unclaimed(s)
    requires forall i :: 0 <= i < |s.workers| ==> s.workers[i].numProcessing == level
    ensures |s.workers| > 0 && Steady(s)
    ensures Loads(s.workers) == Spread(|s.workers|, level, 0) && Balanced(Loads(s.workers))
  {
    hide WorkerOk, PipeOk, BrokerOk, FirstMin;
    assert Loads(s.workers) == Spread(|s.workers|, level, 0);
  }

  lemma TurnsAreMod(log: seq<nat>, w: nat, k: nat)
    requires w > 0
    ensures var e := log + Turns(w, 0, k);
            log <= e && forall t :: 0 <= t < |e| - |log| ==> e[|log| + t] == t % w
  {
    forall t | 0 <= t < k ensures Turns(w, 0, k)[t] == t % w {
      TurnIsMod(w, 0, t);
    }
  }

  /** Such runs exist: an undisturbed broker hands over any number of requests from the pipe. */
  lemma RoundsExist(s: Pool, k: nat, level: int)
    requires Inv(s) && s.broker.Draining? && k <= |s.pipe| && Undesired(s, k)
    requires forall i :: 0 <= i < |s.workers| ==> s.workers[i].numProcessing == level
    ensures CanRun(s, Rounds(|s.workers|, k)) && AllCalm(Rounds(|s.workers|, k), |s.workers|)
    ensures |RunOf(s, Rounds(|s.workers|, k)).log| == |s.log| + k
  {
    assert Loads(s.workers) == Spread(|s.workers|, level, 0);
    UndisturbedTurns(s, k, level, 0);
    RoundsCalm(|s.workers|, k);
  }

  lemma {:induction false} RoundsCalm(w: nat, k: nat)
    ensures AllCalm(Rounds(w, k), w)
  {
    if k > 0 {
      RoundsCalm(w, k - 1);
    }
  }
}
