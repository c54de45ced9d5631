/**
 The persisted state machine of an operation: a fixed path of steps for each kind, the validator that
 guards every stored transition, and what holds over every run of accepted transitions and retries.
 */
module OperationSteps {

  datatype Kind = Create | Start | UpdateOp | Restart | Stop | Delete | UnknownKind(name: string)

  datatype StepName =
    | Admission | ReserveQuota | ResolveGpu | ApplyCr | MaterializeModel | ApplyRuntime | ObserveRuntime
    | WithdrawPublication | DeleteRuntime | ObserveAbsence | DeleteCr | Publish | ReleaseQuota
    | ReleasePreviousQuota | Complete | UnknownStep(name: string)

  datatype Phase = Pending | Running | Succeeded | Failed | UnknownPhase(name: string)

  /** The path of a kind; a kind without a path has the empty one. */
  function Path(kind: Kind): (path: seq<StepName>)
    ensures path != [] ==> |path| >= 5 && path[|path| - 1] == Complete
  {
    match kind
    case Create => [Admission, ReserveQuota, ResolveGpu, ApplyCr, MaterializeModel, ApplyRuntime, ObserveRuntime, Publish, Complete]
    case Start => [ReserveQuota, ResolveGpu, ApplyCr, MaterializeModel, ApplyRuntime, ObserveRuntime, Publish, Complete]
    case UpdateOp => ReplacementPath()
    case Restart => ReplacementPath()
    case Stop => [WithdrawPublication, DeleteRuntime, ObserveAbsence, ReleaseQuota, Complete]
    case Delete => [WithdrawPublication, DeleteRuntime, ObserveAbsence, DeleteCr, ReleaseQuota, Complete]
    case UnknownKind(_) => []
  }

  function ReplacementPath(): seq<StepName> {
    [WithdrawPublication, DeleteRuntime, ObserveAbsence, ReleasePreviousQuota, ReserveQuota, ResolveGpu, ApplyCr,
     MaterializeModel, ApplyRuntime, ObserveRuntime, Publish, Complete]
  }

  /** The first position of a step, or -1. */
  function StepIndex(path: seq<StepName>, step: StepName): (i: int)
    ensures -1 <= i < |path|
    ensures i < 0 ==> step !in path
    ensures i >= 0 ==> path[i] == step && step !in path[..i]
  {
    if path == [] then -1
    else if path[0] == step then 0
    else
      var rest := StepIndex(path[1..], step);
      assert path == [path[0]] + path[1..];
      if rest < 0 then -1
      else
        assert path[..rest + 1] == [path[0]] + path[1..][..rest];
        rest + 1
  }

  /** May a stored operation move along `path` from one phase and step to another? */
  predicate AcceptsOn(path: seq<StepName>, fromPhase: Phase, fromStep: StepName, toPhase: Phase, toStep: StepName) {
    var from := StepIndex(path, fromStep);
    if !(fromPhase.Pending? || fromPhase.Running?) || from < 0 || from >= |path| - 1 then false
    else if toPhase.Failed? then toStep == Complete
    else if toPhase.Succeeded? then fromPhase.Running? && toStep == Complete && from == |path| - 2
    else if !toPhase.Running? then false
    else
      var to := StepIndex(path, toStep);
      if to < 0 || to >= |path| - 1 then false
      else if fromPhase.Pending? then from == to
      else if fromStep == ReserveQuota && toStep == ApplyCr && path[from + 1] == ResolveGpu then true
      else to == from + 1
  }

  /** The validator: a kind without a path accepts nothing. */
  predicate Accepts(kind: Kind, fromPhase: Phase, fromStep: StepName, toPhase: Phase, toStep: StepName) {
    AcceptsOn(Path(kind), fromPhase, fromStep, toPhase, toStep)
  }

  /** What every kind's path has: distinct steps, the terminal marker last, GPU resolution right before the CR. */
  ghost predicate GoodPath(path: seq<StepName>) {
    && |path| >= 2 && path[|path| - 1] == Complete
    && (forall i, j :: 0 <= i < j < |path| ==> path[i] != path[j])
    && (forall i :: 0 <= i < |path| - 1 && path[i] == ResolveGpu ==> path[i + 1] == ApplyCr)
  }

  lemma ReplacementPathIsGood()
    ensures GoodPath(ReplacementPath())
  {
  }

  lemma PathsAreGood(kind: Kind)
    ensures Path(kind) != [] ==> GoodPath(Path(kind))
    ensures Path(kind) == [] <==> kind.UnknownKind?
  {
    if kind == UpdateOp || kind == Restart {
      ReplacementPathIsGood();
    }
  }

  lemma IndexOf(path: seq<StepName>, i: nat)
    requires GoodPath(path) && i < |path|
    ensures StepIndex(path, path[i]) == i
  {
    var at := StepIndex(path, path[i]);
    assert path[at] == path[i];
  }

  ghost predicate Precedes(path: seq<StepName>, a: StepName, b: StepName) {
    exists i, j :: 0 <= i < j < |path| && path[i] == a && path[j] == b
  }

  /** The order of effects the paths are built for. */
  ghost predicate Sequenced(path: seq<StepName>) {
    && (DeleteRuntime in path ==> Precedes(path, WithdrawPublication, DeleteRuntime))
    && (ObserveAbsence in path && ApplyRuntime in path ==> Precedes(path, ObserveAbsence, ApplyRuntime))
    && (ReleaseQuota in path ==> Precedes(path, ObserveAbsence, ReleaseQuota))
    && (Publish in path ==> Precedes(path, ObserveRuntime, Publish))
    && !(ReserveQuota in path && ReleaseQuota in path)
  }

  lemma PrecedesIndex(path: seq<StepName>, a: StepName, b: StepName)
    requires GoodPath(path) && Precedes(path, a, b)
    ensures 0 <= StepIndex(path, a) < StepIndex(path, b)
  {
    var i, j :| 0 <= i < j < |path| && path[i] == a && path[j] == b;
    IndexOf(path, i);
    IndexOf(path, j);
  }

  lemma StartingPathIsSequenced(kind: Kind)
    requires kind == Create || kind == Start
    ensures Sequenced(Path(kind))
  {
    var path := Path(kind);
    assert path[|path| - 3] == ObserveRuntime && path[|path| - 2] == Publish;
  }

  lemma ReplacementOrder()
    ensures Precedes(ReplacementPath(), WithdrawPublication, DeleteRuntime)
    ensures Precedes(ReplacementPath(), ObserveAbsence, ApplyRuntime)
    ensures Precedes(ReplacementPath(), ObserveRuntime, Publish)
  {
    var path := ReplacementPath();
    assert path[0] == WithdrawPublication && path[1] == DeleteRuntime;
    assert path[2] == ObserveAbsence && path[8] == ApplyRuntime;
    assert path[9] == ObserveRuntime && path[10] == Publish;
  }

  lemma ReplacementKeepsQuota()
    ensures ReleaseQuota !in ReplacementPath()
  {
  }

  lemma SequencedBy(path: seq<StepName>)
    requires Precedes(path, WithdrawPublication, DeleteRuntime) && Precedes(path, ObserveAbsence, ApplyRuntime)
    requires Precedes(path, ObserveRuntime, Publish) && ReleaseQuota !in path
    ensures Sequenced(path)
  {
  }

  lemma ReplacementPathIsSequenced()
    ensures Sequenced(ReplacementPath())
  {
    ReplacementOrder();
    ReplacementKeepsQuota();
    SequencedBy(ReplacementPath());
  }

  lemma EndingPathIsSequenced(kind: Kind)
    requires kind == Stop || kind == Delete
    ensures Sequenced(Path(kind))
  {
    var path := Path(kind);
    assert path[0] == WithdrawPublication && path[1] == DeleteRuntime;
    assert path[2] == ObserveAbsence && path[|path| - 2] == ReleaseQuota;
  }

  /** Every kind's path is good and sequenced; update and restart observe absence and apply a runtime. */
  lemma KindsAreSequenced(kind: Kind)
    requires !kind.UnknownKind?
    ensures GoodPath(Path(kind)) && Sequenced(Path(kind))
    ensures kind in {UpdateOp, Restart} ==> ObserveAbsence in Path(kind) && ApplyRuntime in Path(kind)
  {
    PathsAreGood(kind);
    match kind
    case Create => StartingPathIsSequenced(kind);
    case Start => StartingPathIsSequenced(kind);
    case UpdateOp => ReplacementPathIsSequenced();
    case Restart => ReplacementPathIsSequenced();
    case Stop => EndingPathIsSequenced(kind);
    case Delete => EndingPathIsSequenced(kind);
  }

  // ---- Runs ----

  datatype OpState = OpState(phase: Phase, step: StepName)

  ghost predicate Terminal(s: OpState) {
    s.phase.Succeeded? || s.phase.Failed?
  }

  predicate Accepted(path: seq<StepName>, a: OpState, b: OpState) {
    AcceptsOn(path, a.phase, a.step, b.phase, b.step)
  }

  /** A retry returns an active operation to pending at the same step. */
  predicate Retried(a: OpState, b: OpState) {
    (a.phase.Pending? || a.phase.Running?) && b == OpState(Pending, a.step)
  }

  ghost predicate Follows(path: seq<StepName>, a: OpState, b: OpState) {
    Accepted(path, a, b) || Retried(a, b)
  }

  /** A run starts pending at the first step; each state follows from the one before. */
  ghost predicate IsRun(path: seq<StepName>, run: seq<OpState>) {
    && run != [] && path != []
    && run[0] == OpState(Pending, path[0])
    && forall i :: 0 < i < |run| ==> Follows(path, run[i - 1], run[i])
  }

  ghost predicate ActiveState(path: seq<StepName>, s: OpState) {
    s.phase in {Pending, Running} && 0 <= StepIndex(path, s.step) < |path| - 1
  }

  lemma RunPrefix(path: seq<StepName>, run: seq<OpState>, n: nat)
    requires IsRun(path, run) && 0 < n <= |run|
    ensures IsRun(path, run[..n])
  {
    forall i | 0 < i < n ensures Follows(path, run[..n][i - 1], run[..n][i]) {
      assert Follows(path, run[i - 1], run[i]);
    }
  }

  /** Every state of a run is active on the path, or terminal at its end. */
  lemma {:induction false} RunStates(path: seq<StepName>, run: seq<OpState>, i: nat)
    requires GoodPath(path) && IsRun(path, run) && i < |run|
    ensures ActiveState(path, run[i]) || (Terminal(run[i]) && run[i].step == Complete)
  {
    if i == 0 {
      IndexOf(path, 0);
    } else {
      RunStates(path, run, i - 1);
      assert Follows(path, run[i - 1], run[i]);
    }
  }

  /** The compatibility edge over GPU resolution is the only one longer than a step, and none goes back. */
  lemma EdgeLength(path: seq<StepName>, a: OpState, b: OpState)
    requires GoodPath(path) && Follows(path, a, b) && ActiveState(path, b)
    ensures StepIndex(path, a.step) <= StepIndex(path, b.step)
    ensures StepIndex(path, b.step) > StepIndex(path, a.step) + 1 ==>
              a.phase.Running? && path[StepIndex(path, a.step) + 1] == ResolveGpu && StepIndex(path, b.step) == StepIndex(path, a.step) + 2
    ensures Accepted(path, a, b) && a.phase.Running? ==> StepIndex(path, a.step) < StepIndex(path, b.step)
  {
    var from := StepIndex(path, a.step);
    if Accepted(path, a, b) && a.step == ReserveQuota && b.step == ApplyCr && path[from + 1] == ResolveGpu {
      IndexOf(path, from + 2);
    }
  }

  /** Terminal states absorb: nothing follows a succeeded or failed operation. */
  lemma TerminalAbsorbs(path: seq<StepName>, run: seq<OpState>, i: nat)
    requires IsRun(path, run) && i < |run| && Terminal(run[i])
    ensures i == |run| - 1
  {
    assert i + 1 < |run| ==> Follows(path, run[i + 1 - 1], run[i + 1]);
  }

  /** No transition goes back, whether or not it ends the operation. */
  lemma EdgeGoesOn(path: seq<StepName>, a: OpState, b: OpState)
    requires GoodPath(path) && Follows(path, a, b)
    requires ActiveState(path, b) || (Terminal(b) && b.step == Complete)
    ensures StepIndex(path, a.step) <= StepIndex(path, b.step)
  {
    IndexOf(path, |path| - 1);
    if ActiveState(path, b) {
      EdgeLength(path, a, b);
    }
  }

  /** The step index never goes down. */
  lemma {:induction false} StepsNeverGoBack(path: seq<StepName>, run: seq<OpState>, i: nat, j: nat)
    requires GoodPath(path) && IsRun(path, run) && i <= j < |run|
    ensures StepIndex(path, run[i].step) <= StepIndex(path, run[j].step)
    decreases j
  {
    if i < j {
      StepsNeverGoBack(path, run, i, j - 1);
      RunStates(path, run, j);
      assert Follows(path, run[j - 1], run[j]);
      EdgeGoesOn(path, run[j - 1], run[j]);
    }
  }

  /** A step passed by one transition was running just before it. */
  lemma PassedWasRunning(path: seq<StepName>, a: OpState, b: OpState, step: StepName)
    requires GoodPath(path) && Follows(path, a, b) && !b.phase.Failed? && step != ResolveGpu
    requires ActiveState(path, b) || (Terminal(b) && b.step == Complete)
    requires StepIndex(path, a.step) <= StepIndex(path, step) < StepIndex(path, b.step)
    ensures a == OpState(Running, step)
  {
    IndexOf(path, |path| - 1);
    if ActiveState(path, b) {
      EdgeLength(path, a, b);
    }
  }

  /** Every step before the one a run has reached was run, except that `ResolveGpu` may be skipped. */
  lemma {:induction false} EarlierStepsRan(path: seq<StepName>, run: seq<OpState>, last: nat, step: StepName) returns (at: nat)
    requires GoodPath(path) && IsRun(path, run) && last < |run| && !run[last].phase.Failed?
    requires 0 <= StepIndex(path, step) < StepIndex(path, run[last].step)
    requires step != ResolveGpu
    ensures at <= last && run[at] == OpState(Running, step)
  {
    IndexOf(path, 0);
    assert last > 0;
    RunStates(path, run, last);
    assert Follows(path, run[last - 1], run[last]);
    var from := StepIndex(path, run[last - 1].step);
    if StepIndex(path, step) < from {
      at := EarlierStepsRan(path, run, last - 1, step);
    } else {
      at := last - 1;
      PassedWasRunning(path, run[at], run[last], step);
    }
  }

  /** A succeeded operation ran every step of its kind's path, in path order. */
  lemma SucceededRanEverything(kind: Kind, run: seq<OpState>, step: StepName) returns (at: nat)
    requires IsRun(Path(kind), run) && run[|run| - 1].phase.Succeeded?
    requires step in Path(kind) && step != Complete && step != ResolveGpu
    ensures at < |run| && run[at] == OpState(Running, step)
    ensures forall i :: 0 <= i < |run| && StepIndex(Path(kind), run[i].step) > StepIndex(Path(kind), step) ==> i > at
  {
    var path := Path(kind);
    PathsAreGood(kind);
    at := RanEverything(path, run, step);
  }

  lemma RanEverything(path: seq<StepName>, run: seq<OpState>, step: StepName) returns (at: nat)
    requires GoodPath(path) && IsRun(path, run) && run[|run| - 1].phase.Succeeded?
    requires step in path && step != Complete && step != ResolveGpu
    ensures at < |run| && run[at] == OpState(Running, step)
    ensures forall i :: 0 <= i < |run| && StepIndex(path, run[i].step) > StepIndex(path, step) ==> i > at
  {
    RunStates(path, run, |run| - 1);
    IndexOf(path, |path| - 1);
    at := EarlierStepsRan(path, run, |run| - 1, step);
    forall i | 0 <= i < |run| && StepIndex(path, run[i].step) > StepIndex(path, step) ensures i > at {
      if i <= at {
        StepsNeverGoBack(path, run, i, at);
      }
    }
  }

  function Retries(run: seq<OpState>): nat {
    if |run| <= 1 then 0
    else Retries(run[..|run| - 1]) + if run[|run| - 1].phase.Pending? then 1 else 0
  }

  /** How far along its path a state is; a claim counts as half of its step's way. */
  ghost function Progress(path: seq<StepName>, s: OpState): int {
    if ActiveState(path, s) then StepIndex(path, s.step) + if s.phase.Running? then 1 else 0 else |path|
  }

  /** An accepted transition makes progress; a retry loses at most the claim. */
  lemma EdgeProgress(path: seq<StepName>, a: OpState, b: OpState)
    requires GoodPath(path) && Follows(path, a, b) && ActiveState(path, a)
    requires ActiveState(path, b) || (Terminal(b) && b.step == Complete)
    ensures if b.phase.Pending? then Progress(path, b) >= Progress(path, a) - 1 else Progress(path, b) >= Progress(path, a) + 1
  {
    if ActiveState(path, b) {
      EdgeLength(path, a, b);
    }
  }

  /** A run with r retries stores at most path length + r accepted transitions. */
  lemma {:induction false} TransitionsBounded(path: seq<StepName>, run: seq<OpState>)
    requires GoodPath(path) && IsRun(path, run)
    ensures |run| - 1 - Retries(run) <= Progress(path, run[|run| - 1]) + Retries(run) <= |path| + Retries(run)
  {
    var last := |run| - 1;
    if last == 0 {
      IndexOf(path, 0);
    } else {
      var before := run[..last];
      RunPrefix(path, run, last);
      TransitionsBounded(path, before);
      RunStates(path, run, last - 1);
      RunStates(path, run, last);
      assert Follows(path, run[last - 1], run[last]);
      EdgeProgress(path, run[last - 1], run[last]);
    }
  }
}
