/** Whole runs of a focused text box: any keys, pastes and selections. */
module TextBoxRuns {
  import opened Words
  import opened Keys
  import opened ListIdxState
  import opened ListIdxLaws
  import opened TextBoxState
  import opened TextBoxLaws
  import F = FlatEditor

  datatype Op = PressKey(key: KeyUser) | PasteText(str: string) | SelectRange(start: u16, len: u16)

  /** Word jumps are for texts that 16 bits can count. */
  predicate CountableOp(b: Box, op: Op) {
    b.focus && op.PressKey? ==> Countable(b, op.key)
  }

  function Step(b: Box, op: Op): Box
    requires Good(b) && CountableOp(b, op)
  {
    match op
    case PressKey(key) => KeyProcess(b, key).box
    case PasteText(str) => Paste(b, str)
    case SelectRange(start, len) => SelectionSet(b, start, len)
  }

  function FlatStep(f: F.Flat, r: F.Rules, op: Op): (g: F.Flat)
    requires F.Within(f)
    ensures F.Within(g) && |g.text| <= Max(|f.text|, r.lenMax)
  {
    match op
    case PressKey(key) => F.Press(f, r, key).flat
    case PasteText(str) => F.Replace(f, str, r)
    case SelectRange(start, len) => F.Select(f, start, len)
  }

  /** A step that replaces the selection needs room. */
  predicate FitsOp(b: Box, op: Op)
    requires Focused(b)
  {
    match op
    case PressKey(key) => FitsKey(b, key)
    case PasteText(_) => HasRoom(b)
    case SelectRange(_, _) => true
  }

  /** A selection counts in 16 bits, so in a longer text it must end in front of the remainder. */
  predicate Reaches(b: Box, start: u16, len: u16) {
    || |b.work| < TWO_16
    || (len != 0 && start <= Trunc16(|b.work|) && Add16(start, len) <= Trunc16(|b.work|))
  }

  predicate AlignedOp(b: Box, op: Op)
    requires Focused(b)
  {
    match op
    case PressKey(key) => Aligned(b, key)
    case PasteText(_) => KeepsPlace(b)
    case SelectRange(start, len) => Reaches(b, start, len)
  }

  /** From the first place on, n steps lead to place n. */
  lemma FromStart(b: Box, n: nat)
    requires Focused(b) && n <= |b.work|
    ensures var i := IncN(Reset(b.front), n);
            Usable(i) && SameShape(b.front, i) && i.size == b.front.size && Abs(i) == n
            && (Framed(b.front) ==> Framed(i))
  {
    ResetLaw(b.front);
    IncNLaw(Reset(b.front), n);
  }

  lemma SelectRefines(b: Box, start: u16, len: u16)
    requires Focused(b)
    ensures Flatten(SelectionSet(b, start, len)) == F.Select(Flatten(b), start, len) <==> Reaches(b, start, len)
    ensures Kept(b, SelectionSet(b, start, len))
  {
    hide Framed, Usable, Reset, IncN;
    var max := Trunc16(|b.work|);
    var first := if start > max then max else start;
    var last := if len == 0 || Add16(start, len) > max then max else Add16(start, len);
    FromStart(b, first);
    FromStart(b, last);
  }

  lemma StepRefines(b: Box, op: Op)
    requires Focused(b) && CountableOp(b, op)
    ensures F.Within(Flatten(b))
    ensures FitsOp(b, op) ==> (Flatten(Step(b, op)) == FlatStep(Flatten(b), RulesOf(b), op) <==> AlignedOp(b, op))
    ensures Kept(b, Step(b, op)) <==> FitsOp(b, op)
    ensures FitsOp(b, op) ==> |Step(b, op).work| <= Max(|b.work|, b.cfg.lenMax)
  {
    hide KeyProcess, F.Press, F.Replace, SelectionReplace, SelectionSet, F.Select, Framed, Usable, Shortened;
    FocusedFacts(b);
    match op
    case PressKey(key) => KeyRefines(b, key);
    case PasteText(str) =>
      ReplaceNeedsRoom(b, str);
      if HasRoom(b) {
        ReplaceRefines(b, str);
        ReplaceKeepsOrder(b, str);
      }
    case SelectRange(start, len) =>
      SelectRefines(b, start, len);
      assert SelectionSet(b, start, len).work == b.work by {
        SelectionText(b, start, len);
      }
  }

  lemma SelectionText(b: Box, start: u16, len: u16)
    ensures SelectionSet(b, start, len).work == b.work
  {
  }

  lemma StepKeeps(b: Box, op: Op)
    requires Focused(b) && CountableOp(b, op) && FitsOp(b, op)
    ensures Kept(b, Step(b, op))
  {
    hide *;
    StepRefines(b, op);
  }

  /** Every step is countable and fits. */
  predicate FitsRun(b: Box, ops: seq<Op>)
    requires Focused(b)
    decreases |ops|
  {
    ops == []
    || (CountableOp(b, ops[0]) && FitsOp(b, ops[0])
        && (StepKeeps(b, ops[0]); FitsRun(Step(b, ops[0]), ops[1..])))
  }

  function Run(b: Box, ops: seq<Op>): Box
    requires Focused(b) && FitsRun(b, ops)
    decreases |ops|
  {
    if ops == [] then b
    else
      StepKeeps(b, ops[0]);
      Run(Step(b, ops[0]), ops[1..])
  }

  function FlatRun(f: F.Flat, r: F.Rules, ops: seq<Op>): F.Flat
    requires F.Within(f)
    decreases |ops|
  {
    if ops == [] then f else FlatRun(FlatStep(f, r, ops[0]), r, ops[1..])
  }

  predicate AlignedRun(b: Box, ops: seq<Op>)
    requires Focused(b) && FitsRun(b, ops)
    decreases |ops|
  {
    ops == []
    || (StepKeeps(b, ops[0]); AlignedOp(b, ops[0]) && AlignedRun(Step(b, ops[0]), ops[1..]))
  }

  /** The box and a flat editor show the same after every prefix of the run. */
  predicate Tracks(b: Box, f: F.Flat, r: F.Rules, ops: seq<Op>)
    requires Focused(b) && FitsRun(b, ops) && F.Within(f)
    decreases |ops|
  {
    && Flatten(b) == f
    && (ops != [] ==>
          (StepKeeps(b, ops[0]); Tracks(Step(b, ops[0]), FlatStep(f, r, ops[0]), r, ops[1..])))
  }

  /** Every run whose steps fit keeps the invariants: sizes, cursor ranges and the scroll margins. The
      text grows to the limit at most. */
  lemma {:induction false} RunKeeps(b: Box, ops: seq<Op>)
    requires Focused(b) && FitsRun(b, ops)
    ensures Kept(b, Run(b, ops)) && |Run(b, ops).work| <= Max(|b.work|, b.cfg.lenMax)
    decreases |ops|
  {
    hide Step, Good, Framed, FitsOp;
    if ops != [] {
      StepKeeps(b, ops[0]);
      StepRefines(b, ops[0]);
      RunKeeps(Step(b, ops[0]), ops[1..]);
    }
  }

  /** From a text within the limit every run fits. */
  lemma {:induction false} LimitFits(b: Box, ops: seq<Op>)
    requires Focused(b) && |b.work| <= b.cfg.lenMax
    ensures FitsRun(b, ops) && |Run(b, ops).work| <= b.cfg.lenMax
    decreases |ops|
  {
    hide Step, Good, Framed, FitsOp;
    if ops != [] {
      LimitStep(b, ops[0]);
      StepKeeps(b, ops[0]);
      StepRefines(b, ops[0]);
      LimitFits(Step(b, ops[0]), ops[1..]);
    }
  }

  lemma LimitStep(b: Box, op: Op)
    requires Focused(b) && |b.work| <= b.cfg.lenMax
    ensures HasRoom(b) && CountableOp(b, op) && FitsOp(b, op)
  {
    FocusedFacts(b);
  }

  /** The box tracks the flat editor through a run exactly when every step of it is aligned. */
  lemma {:induction false} RunRefines(b: Box, ops: seq<Op>)
    requires Focused(b) && FitsRun(b, ops)
    ensures F.Within(Flatten(b))
    ensures Tracks(b, Flatten(b), RulesOf(b), ops) <==> AlignedRun(b, ops)
    ensures AlignedRun(b, ops) ==> Flatten(Run(b, ops)) == FlatRun(Flatten(b), RulesOf(b), ops)
    decreases |ops|
  {
    hide Step, FlatStep, AlignedOp, FitsOp, Good, Framed, Flatten;
    FocusedFacts(b);
    if ops != [] {
      StepRefines(b, ops[0]);
      RunRefines(Step(b, ops[0]), ops[1..]);
    }
  }

  /** A box that is wider than its longest text never scrolls, so no run can leave the flat editor. */
  lemma WideBoxTracks(b: Box, ops: seq<Op>)
    requires Focused(b) && |b.work| <= b.cfg.lenMax < b.front.win
    ensures F.Within(Flatten(b)) && FitsRun(b, ops)
    ensures Tracks(b, Flatten(b), RulesOf(b), ops)
    ensures Flatten(Run(b, ops)) == FlatRun(Flatten(b), RulesOf(b), ops)
  {
    hide *;
    LimitFits(b, ops);
    WideBoxAligned(b, ops);
    RunRefines(b, ops);
  }

  lemma {:induction false} WideBoxAligned(b: Box, ops: seq<Op>)
    requires Focused(b) && |b.work| <= b.cfg.lenMax < b.front.win && FitsRun(b, ops)
    ensures AlignedRun(b, ops)
    decreases |ops|
  {
    AbsInRange(b.front);
    AbsInRange(b.back);
    assert KeepsPlace(b);
    hide Step, Good, Framed, Usable, Aligned, KeepsPlace, FitsOp;
    if ops != [] {
      assert AlignedOp(b, ops[0]) by {
        AlwaysAligned(b, ops[0]);
      }
      StepKeeps(b, ops[0]);
      StepRefines(b, ops[0]);
      WideBoxAligned(Step(b, ops[0]), ops[1..]);
    }
  }

  lemma AlwaysAligned(b: Box, op: Op)
    requires Focused(b) && KeepsPlace(b) && |b.work| < TWO_16
    ensures AlignedOp(b, op)
  {
  }
}
