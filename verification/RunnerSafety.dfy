/** What holds over every run of the runner protocol, by one inductive invariant. */
module RunnerSafety {
  import opened Text
  import opened OperationSteps
  import opened RunnerProtocol

  /** What a load may teach. */
  const LOADED: set<Fact> := {QuotaConfirmed, QuotaKept, PreviousCleared, CurrentCleared, PlanKept}

  /** Everything anybody has learned, and what one worker has. */
  ghost function FactsOf(log: seq<Entry>): set<Fact> {
    if log == [] then {} else FactsOf(log[..|log| - 1]) + log[|log| - 1].gained
  }

  ghost function FactsBy(log: seq<Entry>, t: Token): set<Fact> {
    if log == [] then {}
    else
      var rest, e := FactsBy(log[..|log| - 1], t), log[|log| - 1];
      if e.token == t then rest + e.gained else rest
  }

  /** One worker has learned all that leaving this step takes. */
  ghost predicate LeftBy(cfg: Config, log: seq<Entry>, step: StepName) {
    exists u :: Leave(cfg, step) <= FactsBy(log, u)
  }

  /** Every step before `step` (GPU resolution may be skipped) was left by a worker that had learned what it takes. */
  ghost predicate EarlierLeft(cfg: Config, step: StepName, log: seq<Entry>) {
    forall i {:trigger LeftBy(cfg, log, cfg.path[i])} ::
      0 <= i < StepIndex(cfg.path, step) && i < |cfg.path| && cfg.path[i] != ResolveGpu ==> LeftBy(cfg, log, cfg.path[i])
  }

  /** A worker observes once, and looks a reservation up once. */
  ghost predicate OnlyOnce(known: set<Fact>, p: Port) {
    && (p.LookReady? || p.LookAbsent? ==> Looked !in known)
    && (p.GetReservation? ==> QuotaLooked !in known)
  }

  /** A worker makes all its calls at one step. */
  ghost predicate OneStep(before: seq<Entry>, e: Entry) {
    forall i :: 0 <= i < |before| && before[i].token == e.token ==> before[i].step == e.step
  }

  /** A call was justified when it was made: all earlier steps were complete, and so was its own worker's preparation. */
  ghost predicate Justified(cfg: Config, before: seq<Entry>, e: Entry) {
    && EarlierLeft(cfg, e.step, before)
    && Prior(cfg, e.step, e.port) <= FactsBy(before, e.token) && OnlyOnce(FactsBy(before, e.token), e.port)
    && ActiveStep(cfg, e.step) && OneStep(before, e)
    && if e.port.LoadOperation? then e.gained <= LOADED else AtStep(e.port, e.step) && e.gained == Gain(cfg, e.port, e.reply)
  }

  ghost predicate JustifiedAt(cfg: Config, log: seq<Entry>, k: nat) {
    k < |log| && Justified(cfg, log[..k], log[k])
  }

  ghost predicate AllJustified(cfg: Config, log: seq<Entry>) {
    forall k: nat {:trigger JustifiedAt(cfg, log, k)} :: k < |log| ==> JustifiedAt(cfg, log, k)
  }

  /** Calls of lease holders come in step order, none beyond the operation's step. */
  ghost predicate Ordered(cfg: Config, step: StepName, log: seq<Entry>) {
    && (forall k: nat {:trigger Reached(cfg, step, log, k)} :: Reached(cfg, step, log, k))
    && (forall j: nat, k: nat {:trigger InOrder(cfg, log, j, k)} :: InOrder(cfg, log, j, k))
  }

  ghost predicate Reached(cfg: Config, step: StepName, log: seq<Entry>, k: nat) {
    k < |log| && log[k].held ==> StepIndex(cfg.path, log[k].step) <= StepIndex(cfg.path, step)
  }

  ghost predicate InOrder(cfg: Config, log: seq<Entry>, j: nat, k: nat) {
    j < k < |log| && log[j].held && log[k].held ==> StepIndex(cfg.path, log[j].step) <= StepIndex(cfg.path, log[k].step)
  }

  ghost predicate ActiveStep(cfg: Config, step: StepName) {
    0 <= StepIndex(cfg.path, step) < |cfg.path| - 1
  }

  /** The operation row is on its path, and tokens in use were granted. */
  ghost predicate Placed(s: State) {
    && GoodPath(s.cfg.path)
    && (ActiveState(s.cfg.path, s.op) || (Terminal(s.op) && s.op.step == Complete))
    && s.workers.Keys <= s.lease.used && EntriesOf(s.log, s.workers)
    && (s.lease.holder.Some? ==> s.lease.holder.value in s.lease.used)
  }

  /** Every entry is by a worker, at its step. */
  ghost predicate EntriesOf(log: seq<Entry>, workers: map<Token, Worker>) {
    forall i :: 0 <= i < |log| ==> log[i].token in workers && log[i].step == workers[log[i].token].step
  }

  /** A worker that still holds the lease sees the operation as it is. */
  ghost predicate HoldersCurrent(s: State) {
    forall t :: t in s.workers && Held(s, t) && !s.workers[t].done ==> s.op == OpState(s.workers[t].phase, s.workers[t].step)
  }

  ghost predicate WorkersKnow(s: State) {
    forall t :: t in s.workers ==>
      && s.workers[t].facts == FactsBy(s.log, t)
      && ActiveStep(s.cfg, s.workers[t].step)
      && EarlierLeft(s.cfg, s.workers[t].step, s.log)
  }

  ghost predicate Control(s: State) {
    Placed(s) && HoldersCurrent(s)
  }

  ghost predicate Account(s: State) {
    && WorkersKnow(s)
    && (!s.op.phase.Failed? ==> EarlierLeft(s.cfg, s.op.step, s.log))
    && AllJustified(s.cfg, s.log)
    && Ordered(s.cfg, s.op.step, s.log)
  }

  ghost predicate Inv(s: State) {
    Control(s) && Account(s)
  }

  lemma {:induction false} FactsByAreFacts(log: seq<Entry>, t: Token)
    ensures FactsBy(log, t) <= FactsOf(log)
  {
    if log != [] {
      FactsByAreFacts(log[..|log| - 1], t);
    }
  }

  /** What one worker learned when it left a step is learned. */
  lemma LeftIsLearned(cfg: Config, log: seq<Entry>, step: StepName)
    requires LeftBy(cfg, log, step)
    ensures Leave(cfg, step) <= FactsOf(log)
  {
    var u :| Leave(cfg, step) <= FactsBy(log, u);
    FactsByAreFacts(log, u);
  }

  lemma FactsAppend(log: seq<Entry>, e: Entry, t: Token)
    ensures FactsOf(log + [e]) == FactsOf(log) + e.gained
    ensures FactsBy(log + [e], t) == if e.token == t then FactsBy(log, t) + e.gained else FactsBy(log, t)
  {
    assert (log + [e])[..|log|] == log;
  }

  lemma {:induction false} StrangerKnowsNothing(log: seq<Entry>, t: Token)
    requires forall i :: 0 <= i < |log| ==> log[i].token != t
    ensures FactsBy(log, t) == {}
  {
    if log != [] {
      StrangerKnowsNothing(log[..|log| - 1], t);
    }
  }

  /** What was left stays left. */
  lemma LeftAppend(cfg: Config, step: StepName, log: seq<Entry>, e: Entry)
    requires EarlierLeft(cfg, step, log)
    ensures EarlierLeft(cfg, step, log + [e])
  {
    forall i | 0 <= i < StepIndex(cfg.path, step) && i < |cfg.path| && cfg.path[i] != ResolveGpu ensures LeftBy(cfg, log + [e], cfg.path[i]) {
      assert LeftBy(cfg, log, cfg.path[i]);
      var u :| Leave(cfg, cfg.path[i]) <= FactsBy(log, u);
      FactsAppend(log, e, u);
    }
  }

  lemma JustifiedAppend(cfg: Config, log: seq<Entry>, e: Entry)
    requires AllJustified(cfg, log) && Justified(cfg, log, e)
    ensures AllJustified(cfg, log + [e])
  {
    var log' := log + [e];
    forall k: nat | k < |log'| ensures JustifiedAt(cfg, log', k) {
      assert log'[..k] == log[..k];
      if k == |log| {
        assert log[..k] == log;
      } else {
        assert JustifiedAt(cfg, log, k);
      }
    }
  }

  // ---- One move at a time ----

  /** Entry `e` of worker `t`, who then is `w`, was made as the protocol says. */
  ghost predicate Proper(s: State, t: Token, e: Entry, w: Worker) {
    && e.token == t && e.step == w.step && e.held == Held(s, t)
    && w.facts == FactsBy(s.log, t) + e.gained
    && Prior(s.cfg, e.step, e.port) <= FactsBy(s.log, t) && OnlyOnce(FactsBy(s.log, t), e.port)
    && (if e.port.LoadOperation? then e.gained <= LOADED else AtStep(e.port, e.step) && e.gained == Gain(s.cfg, e.port, e.reply))
    && (if t in s.workers then w.phase == s.workers[t].phase && w.step == s.workers[t].step && !s.workers[t].done
        else Held(s, t) && s.op == OpState(w.phase, w.step) && ActivePhase(s.op.phase))
  }

  lemma AppendKeepsLog(cfg: Config, op: OpState, log: seq<Entry>, e: Entry)
    requires AllJustified(cfg, log) && Ordered(cfg, op.step, log) && Justified(cfg, log, e)
    requires e.held ==> e.step == op.step
    ensures AllJustified(cfg, log + [e]) && Ordered(cfg, op.step, log + [e])
  {
    JustifiedAppend(cfg, log, e);
    forall k: nat ensures Reached(cfg, op.step, log + [e], k) {
      assert Reached(cfg, op.step, log, k);
    }
    forall j: nat, k: nat ensures InOrder(cfg, log + [e], j, k) {
      assert InOrder(cfg, log, j, k) && Reached(cfg, op.step, log, j);
    }
  }

  lemma AppendKeepsWorkers(s: State, s': State, t: Token, e: Entry, w: Worker)
    requires WorkersKnow(s) && s'.cfg == s.cfg
    requires s'.workers == s.workers[t := w] && s'.log == s.log + [e] && e.token == t
    requires w.facts == FactsBy(s.log, t) + e.gained && ActiveStep(s.cfg, w.step) && EarlierLeft(s.cfg, w.step, s.log)
    ensures WorkersKnow(s')
  {
    forall u | u in s'.workers
      ensures s'.workers[u].facts == FactsBy(s'.log, u) && ActiveStep(s.cfg, s'.workers[u].step)
      ensures EarlierLeft(s.cfg, s'.workers[u].step, s'.log)
    {
      FactsAppend(s.log, e, u);
      LeftAppend(s.cfg, s'.workers[u].step, s.log, e);
    }
  }

  lemma AppendKeepsControl(s: State, s': State, t: Token, e: Entry, w: Worker)
    requires Control(s) && s'.cfg == s.cfg && s'.op == s.op && s'.lease == s.lease && t in s.lease.used
    requires s'.workers == s.workers[t := w] && s'.log == s.log + [e] && Proper(s, t, e, w)
    ensures Control(s')
  {
  }

  /** Appending a proper entry keeps the invariant. */
  lemma AppendKeeps(s: State, s': State, t: Token, e: Entry, w: Worker)
    requires Inv(s) && s'.cfg == s.cfg && s'.op == s.op && s'.lease == s.lease && t in s.lease.used
    requires s'.workers == s.workers[t := w] && s'.log == s.log + [e] && Proper(s, t, e, w)
    ensures Inv(s')
  {
    AppendKeepsControl(s, s', t, e, w);
    AppendKeepsLog(s.cfg, s.op, s.log, e);
    AppendKeepsWorkers(s, s', t, e, w);
    if !s.op.phase.Failed? {
      LeftAppend(s.cfg, s.op.step, s.log, e);
    }
  }

  lemma CallIsProper(s: State, t: Token, p: Port, r: Reply)
    requires WorkersKnow(s) && MayCall(s, t, p, r)
    ensures Proper(s, t, Entry(t, s.workers[t].step, p, r, Gain(s.cfg, p, r), Held(s, t)), Learned(s.cfg, s.workers[t], p, r))
  {
  }

  lemma CallKeepsInv(s: State, t: Token, p: Port, r: Reply)
    requires Inv(s)
    ensures Inv(DoCall(s, t, p, r))
  {
    if MayCall(s, t, p, r) {
      var w := s.workers[t];
      var e := Entry(t, w.step, p, r, Gain(s.cfg, p, r), Held(s, t));
      CallIsProper(s, t, p, r);
      AppendKeeps(s, DoCall(s, t, p, r), t, e, Learned(s.cfg, w, p, r));
    }
  }

  lemma LoadKeepsInv(s: State, t: Token)
    requires Inv(s)
    ensures Inv(DoLoad(s, t))
  {
    var s' := DoLoad(s, t);
    if s' != s {
      StrangerKnowsNothing(s.log, t);
      AppendKeeps(s, s', t, LoadEntry(s, t), s'.workers[t]);
    }
  }

  /** A move of the operation row or the lease: no call is logged and the step does not go back. */
  lemma ControlKeeps(s: State, s': State)
    requires Inv(s) && Control(s') && s'.cfg == s.cfg && s'.log == s.log
    requires s'.workers.Keys == s.workers.Keys
    requires forall t :: t in s.workers ==> s'.workers[t].facts == s.workers[t].facts && s'.workers[t].step == s.workers[t].step
    requires StepIndex(s.cfg.path, s.op.step) <= StepIndex(s.cfg.path, s'.op.step)
    requires !s'.op.phase.Failed? ==> EarlierLeft(s.cfg, s'.op.step, s.log)
    ensures Inv(s')
  {
    forall k: nat ensures Reached(s.cfg, s'.op.step, s.log, k) {
      assert Reached(s.cfg, s.op.step, s.log, k);
    }
  }

  lemma LeaseLostKeepsInv(s: State, l: Lease)
    requires Inv(s)
    requires l.used == s.lease.used && (l.holder == None || l.holder == s.lease.holder) && (l.current ==> s.lease.current)
    ensures Inv(s.(lease := l))
  {
    ControlKeeps(s, s.(lease := l));
  }

  lemma GrantKeepsInv(s: State, t: Token)
    requires Inv(s)
    ensures Inv(s.(lease := DoGrant(s.lease, t)))
  {
    ControlKeeps(s, s.(lease := DoGrant(s.lease, t)));
  }

  lemma RowKeepsControl(s: State, t: Token, op: OpState, w: Worker)
    requires Control(s) && t in s.workers && w.step == s.workers[t].step
    requires w.done || (Held(s, t) && op == OpState(w.phase, w.step))
    requires op == s.op || Held(s, t)
    requires ActiveState(s.cfg.path, op) || (Terminal(op) && op.step == Complete)
    ensures Control(s.(op := op, workers := s.workers[t := w]))
  {
  }

  /** A conditional write by worker `t`, which is then done or sees the row it wrote. */
  lemma RowKeeps(s: State, t: Token, op: OpState, w: Worker)
    requires Inv(s) && t in s.workers
    requires w.facts == s.workers[t].facts && w.step == s.workers[t].step
    requires w.done || (Held(s, t) && op == OpState(w.phase, w.step))
    requires op == s.op || Held(s, t)
    requires ActiveState(s.cfg.path, op) || (Terminal(op) && op.step == Complete)
    requires StepIndex(s.cfg.path, s.op.step) <= StepIndex(s.cfg.path, op.step)
    requires !op.phase.Failed? ==> EarlierLeft(s.cfg, op.step, s.log)
    ensures Inv(s.(op := op, workers := s.workers[t := w]))
  {
    RowKeepsControl(s, t, op, w);
    ControlKeeps(s, s.(op := op, workers := s.workers[t := w]));
  }

  lemma ClaimKeepsInv(s: State, t: Token)
    requires Inv(s)
    ensures Inv(DoClaim(s, t))
  {
    var s' := DoClaim(s, t);
    if s' != s {
      RowKeeps(s, t, s'.op, s'.workers[t]);
    }
  }

  lemma RetryKeepsInv(s: State, t: Token, phase: Phase, step: StepName)
    requires Inv(s)
    ensures Inv(DoRetry(s, t, phase, step))
  {
    if t in s.workers {
      var s' := DoRetry(s, t, phase, step);
      RowKeeps(s, t, s'.op, s'.workers[t]);
    }
  }

  lemma FailKeepsInv(s: State, t: Token)
    requires Inv(s)
    ensures Inv(DoFail(s, t))
  {
    if t in s.workers && ActivePhase(s.op.phase) {
      IndexOf(s.cfg.path, |s.cfg.path| - 1);
      var s' := DoFail(s, t);
      RowKeeps(s, t, s'.op, s'.workers[t]);
    }
  }

  /** Between a step and the one it hands over to lies at most GPU resolution. */
  lemma AdvanceSpan(path: seq<StepName>, step: StepName, next: OpState, i: nat)
    requires GoodPath(path) && AcceptsOn(path, Running, step, next.phase, next.step) && !next.phase.Failed?
    ensures ActiveState(path, next) || (Terminal(next) && next.step == Complete)
    ensures StepIndex(path, step) <= StepIndex(path, next.step)
    ensures StepIndex(path, step) <= i < StepIndex(path, next.step) ==> path[i] == step || path[i] == ResolveGpu
  {
    IndexOf(path, |path| - 1);
    if ActiveState(path, next) {
      EdgeLength(path, OpState(Running, step), next);
    }
  }

  /** Advancing leaves one step, or one and GPU resolution, by a worker that has learned what that step demands. */
  lemma AdvanceLeaves(cfg: Config, step: StepName, next: OpState, log: seq<Entry>, t: Token)
    requires GoodPath(cfg.path) && AcceptsOn(cfg.path, Running, step, next.phase, next.step) && !next.phase.Failed?
    requires EarlierLeft(cfg, step, log) && Leave(cfg, step) <= FactsBy(log, t)
    ensures EarlierLeft(cfg, next.step, log) && StepIndex(cfg.path, step) <= StepIndex(cfg.path, next.step)
    ensures ActiveState(cfg.path, next) || (Terminal(next) && next.step == Complete)
  {
    AdvanceSpan(cfg.path, step, next, 0);
    assert LeftBy(cfg, log, step);
    forall i | 0 <= i < StepIndex(cfg.path, next.step) && i < |cfg.path| && cfg.path[i] != ResolveGpu ensures LeftBy(cfg, log, cfg.path[i]) {
      AdvanceSpan(cfg.path, step, next, i);
    }
  }

  lemma AdvanceKeepsInv(s: State, t: Token, phase: Phase, step: StepName)
    requires Inv(s)
    ensures Inv(DoAdvance(s, t, phase, step))
  {
    if MayAdvance(s, t) {
      var s' := DoAdvance(s, t, phase, step);
      if s'.op != s.op {
        AdvanceLeaves(s.cfg, s.op.step, s'.op, s.log, t);
      }
      RowKeeps(s, t, s'.op, s'.workers[t]);
    }
  }

  lemma StepKeepsInv(s: State, m: Move)
    requires Inv(s)
    ensures Inv(Step(s, m))
  {
    match m
    case Call(t, p, r) => CallKeepsInv(s, t, p, r);
    case Load(t) => LoadKeepsInv(s, t);
    case Advance(t, phase, step) => AdvanceKeepsInv(s, t, phase, step);
    case Grant(t) => GrantKeepsInv(s, t);
    case Expire => LeaseLostKeepsInv(s, s.lease.(holder := None));
    case Supersede => LeaseLostKeepsInv(s, s.lease.(current := false));
    case Claim(t) => ClaimKeepsInv(s, t);
    case Fail(t) => FailKeepsInv(s, t);
    case Retry(t, phase, step) => RetryKeepsInv(s, t, phase, step);
  }

  lemma InitHolds(s: State)
    requires Init(s)
    ensures Inv(s)
  {
    IndexOf(s.cfg.path, 0);
  }

  lemma StepKeepsConfig(s: State, m: Move)
    ensures Step(s, m).cfg == s.cfg
  {
  }

  /** Moves other than effective loads and calls touch neither records nor log, and of a worker only phase and end. */
  ghost predicate Quiet(s: State, s': State) {
    && s'.cfg == s.cfg && s'.store == s.store && s'.authority == s.authority && s'.log == s.log
    && s'.workers.Keys == s.workers.Keys
    && forall t :: t in s.workers ==> SameKnowledge(s.workers[t], s'.workers[t])
  }

  ghost predicate SameKnowledge(w: Worker, w': Worker) {
    && w'.step == w.step && w'.record == w.record && w'.previous == w.previous && w'.seal == w.seal && w'.seen == w.seen
    && w'.pods == w.pods && w'.current == w.current
    && w'.report == w.report && w'.facts == w.facts && (w.done ==> w'.done)
  }

  predicate Speaks(s: State, m: Move) {
    match m
    case Call(t, p, r) => MayCall(s, t, p, r)
    case Load(t) => Held(s, t) && t !in s.workers && ActivePhase(s.op.phase)
    case _ => false
  }

  lemma OtherMovesAreQuiet(s: State, m: Move)
    requires !Speaks(s, m)
    ensures Quiet(s, Step(s, m))
  {
    match m
    case Claim(t) =>
    case Advance(t, phase, step) =>
    case Fail(t) =>
    case Retry(t, phase, step) =>
    case _ =>
  }

  lemma {:induction false} RunKeepsInv(s: State, moves: seq<Move>)
    requires Init(s)
    ensures Inv(Run(s, moves)) && Run(s, moves).cfg == s.cfg
  {
    if moves == [] {
      InitHolds(s);
    } else {
      var before, last := Run(s, moves[..|moves| - 1]), moves[|moves| - 1];
      RunKeepsInv(s, moves[..|moves| - 1]);
      StepKeepsInv(before, last);
      StepKeepsConfig(before, last);
    }
  }

  // ---- What a justified log shows ----

  lemma {:induction false} FactHasCall(log: seq<Entry>, f: Fact) returns (j: nat)
    requires f in FactsOf(log)
    ensures j < |log| && f in log[j].gained
  {
    if f in log[|log| - 1].gained {
      j := |log| - 1;
    } else {
      j := FactHasCall(log[..|log| - 1], f);
    }
  }

  lemma {:induction false} OwnFactHasCall(log: seq<Entry>, t: Token, f: Fact) returns (j: nat)
    requires f in FactsBy(log, t)
    ensures j < |log| && log[j].token == t && f in log[j].gained
  {
    if log[|log| - 1].token == t && f in log[|log| - 1].gained {
      j := |log| - 1;
    } else {
      j := OwnFactHasCall(log[..|log| - 1], t, f);
    }
  }

  lemma LearnedFrom(cfg: Config, log: seq<Entry>, j: nat, f: Fact)
    requires AllJustified(cfg, log) && j < |log| && f in log[j].gained
    ensures f !in LOADED ==> Teaches(cfg, log[j].port, log[j].reply, f)
  {
    assert JustifiedAt(cfg, log, j);
  }

  /** The worker that left an earlier step. */
  lemma EarlierWorker(cfg: Config, log: seq<Entry>, k: nat, a: StepName) returns (u: Token)
    requires GoodPath(cfg.path) && AllJustified(cfg, log) && k < |log| && Precedes(cfg.path, a, log[k].step) && a != ResolveGpu
    ensures Leave(cfg, a) <= FactsBy(log[..k], u)
  {
    assert JustifiedAt(cfg, log, k);
    PrecedesIndex(cfg.path, a, log[k].step);
    assert cfg.path[StepIndex(cfg.path, a)] == a;
    assert LeftBy(cfg, log[..k], a);
    u :| Leave(cfg, a) <= FactsBy(log[..k], u);
  }

  /** The call by which a worker learned a fact. */
  lemma OwnCall(cfg: Config, log: seq<Entry>, k: nat, u: Token, f: Fact) returns (j: nat)
    requires AllJustified(cfg, log) && k <= |log| && f in FactsBy(log[..k], u)
    ensures j < k && log[j].token == u && f in log[j].gained && (f !in LOADED ==> Teaches(cfg, log[j].port, log[j].reply, f))
  {
    j := OwnFactHasCall(log[..k], u, f);
    LearnedFrom(cfg, log, j, f);
  }

  /** The call by the same worker that taught what a call depends on. */
  lemma PriorCall(cfg: Config, log: seq<Entry>, k: nat, f: Fact) returns (j: nat)
    requires AllJustified(cfg, log) && k < |log| && f in Prior(cfg, log[k].step, log[k].port)
    ensures j < k && log[j].token == log[k].token && f in log[j].gained
    ensures f !in LOADED ==> Teaches(cfg, log[j].port, log[j].reply, f)
  {
    assert JustifiedAt(cfg, log, k);
    j := OwnCall(cfg, log, k, log[k].token, f);
  }

  lemma {:induction false} FactsByGrow(log: seq<Entry>, n: nat, t: Token)
    requires n <= |log|
    ensures FactsBy(log[..n], t) <= FactsBy(log, t)
    decreases |log|
  {
    if n < |log| {
      assert log[..|log| - 1][..n] == log[..n];
      FactsByGrow(log[..|log| - 1], n, t);
    } else {
      assert log[..n] == log;
    }
  }

  lemma GainedIsKnown(log: seq<Entry>, j: nat, k: nat)
    requires j < k <= |log|
    ensures log[j].gained <= FactsBy(log[..k], log[j].token)
  {
    assert log[..j + 1] == log[..j] + [log[j]] && log[..k][..j + 1] == log[..j + 1];
    FactsAppend(log[..j], log[j], log[j].token);
    FactsByGrow(log[..k], j + 1, log[j].token);
  }

  ghost predicate IsLook(e: Entry, u: Token) {
    e.token == u && (e.port.LookReady? || e.port.LookAbsent?) && !e.reply.failed
  }

  /** A worker has one successful observation. */
  lemma OneLook(cfg: Config, log: seq<Entry>, i: nat, j: nat, u: Token)
    requires AllJustified(cfg, log) && i < |log| && j < |log| && IsLook(log[i], u) && IsLook(log[j], u)
    ensures i == j
  {
    assert JustifiedAt(cfg, log, i) && JustifiedAt(cfg, log, j);
    assert Teaches(cfg, log[i].port, log[i].reply, Looked) && Teaches(cfg, log[j].port, log[j].reply, Looked);
    if i < j {
      GainedIsKnown(log, i, j);
    } else if j < i {
      GainedIsKnown(log, j, i);
    }
  }

  // ---- The theorems over runs ----

  lemma LogIsJustified(s: State, moves: seq<Move>)
    requires Init(s)
    ensures AllJustified(s.cfg, Run(s, moves).log)
  {
    RunKeepsInv(s, moves);
  }

  /** No step makes the load again. */
  lemma NoLoadPort(p: Port, step: StepName)
    requires AtStep(p, step)
    ensures !p.LoadOperation?
  {
  }

  /** A logged call belongs to its step, and the step is on the path. */
  lemma LoggedStep(cfg: Config, log: seq<Entry>, k: nat)
    requires AllJustified(cfg, log) && k < |log|
    ensures log[k].step in cfg.path
    ensures log[k].port.LoadOperation? || AtStep(log[k].port, log[k].step)
  {
    assert JustifiedAt(cfg, log, k);
    assert cfg.path[StepIndex(cfg.path, log[k].step)] == log[k].step;
  }

  lemma OnlyStep(p: Port, step: StepName)
    requires AtStep(p, step)
    ensures p.RequestDelete? ==> step == DeleteRuntime
    ensures p.PutRuntime? ==> step == ApplyRuntime
    ensures p.Expose? ==> step == Publish
    ensures p.SendReport? || p.SaveReport? ==> step == ReleaseQuota
    ensures p.LookAbsent? ==> step == ObserveAbsence
  {
  }

  lemma WithdrawnBefore(cfg: Config, log: seq<Entry>, k: nat) returns (confirmed: nat, saved: nat)
    requires GoodPath(cfg.path) && Sequenced(cfg.path) && AllJustified(cfg, log) && k < |log| && log[k].port.RequestDelete?
    ensures confirmed < saved < k && log[saved].token == log[confirmed].token
    ensures log[confirmed].port.ConfirmWithdrawn? && !log[confirmed].reply.failed && log[confirmed].reply.yes
    ensures log[saved].port.SaveWithdrawn? && !log[saved].reply.failed
  {
    LoggedStep(cfg, log, k);
    OnlyStep(log[k].port, log[k].step);
    var u := EarlierWorker(cfg, log, k, WithdrawPublication);
    saved := OwnCall(cfg, log, k, u, WithdrawSaved);
    confirmed := PriorCall(cfg, log, saved, WithdrawConfirmed);
  }

  /** The one observation of its worker; it showed the runtime absent. */
  ghost predicate SawAbsent(log: seq<Entry>, j: nat) {
    && j < |log| && log[j].port.LookAbsent? && !log[j].reply.failed && log[j].reply.observation.absent
    && forall i :: 0 <= i < |log| && IsLook(log[i], log[j].token) ==> i == j
  }

  /** A worker that knows of absence made one observation, which showed it, before anything it saved. */
  lemma AbsenceSeen(cfg: Config, log: seq<Entry>, k: nat, u: Token) returns (observed: nat)
    requires AllJustified(cfg, log) && k <= |log| && AbsenceObserved in FactsBy(log[..k], u)
    ensures observed < k && log[observed].token == u && SawAbsent(log, observed)
  {
    observed := OwnCall(cfg, log, k, u, AbsenceObserved);
    forall i | 0 <= i < |log| && IsLook(log[i], u) ensures i == observed {
      OneLook(cfg, log, i, observed, u);
    }
  }

  /** A save of what was observed comes after the observation. */
  lemma SavedAfterLook(cfg: Config, log: seq<Entry>, saved: nat, observed: nat)
    requires AllJustified(cfg, log) && saved < |log| && Looked in Prior(cfg, log[saved].step, log[saved].port)
    requires SawAbsent(log, observed) && log[observed].token == log[saved].token
    ensures observed < saved
  {
    var look := PriorCall(cfg, log, saved, Looked);
    assert IsLook(log[look], log[observed].token);
  }

  /** Calls of one worker are at one step. */
  lemma SameStep(cfg: Config, log: seq<Entry>, i: nat, j: nat)
    requires AllJustified(cfg, log) && i < |log| && j < |log| && log[i].token == log[j].token
    ensures log[i].step == log[j].step
  {
    assert JustifiedAt(cfg, log, i) && JustifiedAt(cfg, log, j);
    if i < j {
      assert log[..j][i] == log[i];
    } else if j < i {
      assert log[..i][j] == log[j];
    }
  }

  lemma AbsentBefore(cfg: Config, log: seq<Entry>, k: nat) returns (observed: nat, saved: nat)
    requires GoodPath(cfg.path) && AllJustified(cfg, log) && k < |log| && Precedes(cfg.path, ObserveAbsence, log[k].step)
    ensures observed < saved < k && log[observed].token == log[saved].token && SawAbsent(log, observed)
    ensures log[saved].port.SaveAbsent? && !log[saved].reply.failed
  {
    var u := EarlierWorker(cfg, log, k, ObserveAbsence);
    observed := AbsenceSeen(cfg, log, k, u);
    saved := OwnCall(cfg, log, k, u, AbsenceSaved);
    SavedAfterLook(cfg, log, saved, observed);
  }

  lemma ReadyBefore(cfg: Config, log: seq<Entry>, k: nat) returns (ready: nat)
    requires GoodPath(cfg.path) && Sequenced(cfg.path) && AllJustified(cfg, log) && k < |log| && log[k].port.Expose?
    ensures ready < k && log[ready].port.LookReady? && !log[ready].reply.failed
    ensures log[ready].reply.observation.ready && log[ready].reply.observation.modelKnown && log[ready].reply.observation.modelReady
  {
    LoggedStep(cfg, log, k);
    OnlyStep(log[k].port, log[k].step);
    var u := EarlierWorker(cfg, log, k, ObserveRuntime);
    ready := OwnCall(cfg, log, k, u, RuntimeReady);
  }

  /**
   Over every run, with crashes between any two calls, lost leases and any retries: a call is made only
   after every earlier step of the path was completed, and after its own worker's preparation.
   */
  lemma EveryCallJustified(s: State, moves: seq<Move>, k: nat)
    requires Init(s) && k < |Run(s, moves).log|
    ensures var log := Run(s, moves).log;
            EarlierLeft(s.cfg, log[k].step, log[..k]) && Prior(s.cfg, log[k].step, log[k].port) <= FactsBy(log[..k], log[k].token)
  {
    LogIsJustified(s, moves);
    assert JustifiedAt(s.cfg, Run(s, moves).log, k);
  }

  /** Calls made by lease holders never go back to an earlier step. */
  lemma HoldersCallInOrder(s: State, moves: seq<Move>, j: nat, k: nat)
    requires Init(s) && j < k < |Run(s, moves).log|
    requires Run(s, moves).log[j].held && Run(s, moves).log[k].held
    ensures StepIndex(s.cfg.path, Run(s, moves).log[j].step) <= StepIndex(s.cfg.path, Run(s, moves).log[k].step)
  {
    RunKeepsInv(s, moves);
    assert InOrder(s.cfg, Run(s, moves).log, j, k);
  }

  /** Runtime deletion is requested only after one worker had the withdrawal confirmed and then saved under the lease. */
  lemma DeletionAfterWithdrawal(s: State, moves: seq<Move>, k: nat) returns (confirmed: nat, saved: nat)
    requires Init(s) && k < |Run(s, moves).log| && Run(s, moves).log[k].port.RequestDelete?
    ensures var log := Run(s, moves).log;
            && confirmed < saved < k && log[saved].token == log[confirmed].token
            && log[confirmed].port.ConfirmWithdrawn? && !log[confirmed].reply.failed && log[confirmed].reply.yes
            && log[saved].port.SaveWithdrawn? && !log[saved].reply.failed
  {
    LogIsJustified(s, moves);
    confirmed, saved := WithdrawnBefore(s.cfg, Run(s, moves).log, k);
  }

  /**
   An operation that removes a runtime applies the next one only after one worker observed the old one
   absent, in its only observation, and then saved that.
   */
  lemma ReplacementAfterAbsence(s: State, moves: seq<Move>, k: nat) returns (observed: nat, saved: nat)
    requires Init(s) && ObserveAbsence in s.cfg.path
    requires k < |Run(s, moves).log| && Run(s, moves).log[k].port.PutRuntime?
    ensures var log := Run(s, moves).log;
            && observed < saved < k && log[observed].token == log[saved].token && SawAbsent(log, observed)
            && log[saved].port.SaveAbsent? && !log[saved].reply.failed
  {
    LogIsJustified(s, moves);
    LoggedStep(s.cfg, Run(s, moves).log, k);
    OnlyStep(Run(s, moves).log[k].port, Run(s, moves).log[k].step);
    observed, saved := AbsentBefore(s.cfg, Run(s, moves).log, k);
  }

  /** A route is exposed only after runtime and model were observed ready together. */
  lemma ExposureAfterReadiness(s: State, moves: seq<Move>, k: nat) returns (ready: nat)
    requires Init(s) && k < |Run(s, moves).log| && Run(s, moves).log[k].port.Expose?
    ensures var log := Run(s, moves).log;
            && ready < k && log[ready].port.LookReady? && !log[ready].reply.failed
            && log[ready].reply.observation.ready && log[ready].reply.observation.modelKnown && log[ready].reply.observation.modelReady
  {
    LogIsJustified(s, moves);
    ready := ReadyBefore(s.cfg, Run(s, moves).log, k);
  }

  // ---- What was done at a step that is past ----

  /** The worker was told of the success of such a call. */
  ghost predicate Did(log: seq<Entry>, u: Token, wanted: Entry -> bool) {
    exists i :: 0 <= i < |log| && log[i].token == u && !log[i].reply.failed && wanted(log[i])
  }

  /** Worker `u` did all that the step is for. The quota steps have theorems of their own. */
  ghost predicate DoneBy(cfg: Config, log: seq<Entry>, u: Token, step: StepName) {
    match step
    case Admission => Did(log, u, (e: Entry) => e.port.Admit?)
    case ApplyCr => Did(log, u, (e: Entry) => e.port.PutCr?)
    case MaterializeModel =>
      && Did(log, u, (e: Entry) => e.port.MarkMaterializing?)
      && Did(log, u, (e: Entry) => e.port.EnsureModel? && e.reply.observation.modelKnown && e.reply.observation.modelReady)
      && Did(log, u, (e: Entry) => e.port.SaveModel?)
    case ApplyRuntime => Did(log, u, (e: Entry) => e.port.PutRuntime?)
    case ObserveRuntime =>
      && Did(log, u, (e: Entry) => e.port.LookReady? && e.reply.observation.ready && e.reply.observation.modelKnown && e.reply.observation.modelReady)
      && Did(log, u, (e: Entry) => e.port.SaveReady?)
    case WithdrawPublication =>
      && Did(log, u, (e: Entry) => e.port.SaveWithdrawing?) && Did(log, u, (e: Entry) => e.port.Withdraw?)
      && Did(log, u, (e: Entry) => e.port.ConfirmWithdrawn? && e.reply.yes) && Did(log, u, (e: Entry) => e.port.SaveWithdrawn?)
    case DeleteRuntime => Did(log, u, (e: Entry) => e.port.RequestDelete?)
    case ObserveAbsence =>
      && Did(log, u, (e: Entry) => e.port.LookAbsent? && e.reply.observation.absent) && Did(log, u, (e: Entry) => e.port.SaveAbsent?)
      && (cfg.managedGpu && cfg.scopeStore ==> Did(log, u, (e: Entry) => e.port.SaveScope? && e.port.seal != ""))
    case DeleteCr => Did(log, u, (e: Entry) => e.port.RemoveCr?) && Did(log, u, (e: Entry) => e.port.CleanupModel?)
    case Publish =>
      && Did(log, u, (e: Entry) => e.port.SavePublishing?) && Did(log, u, (e: Entry) => e.port.Expose?)
      && Did(log, u, (e: Entry) => e.port.ConfirmPublished? && e.reply.yes)
      && (cfg.endpoints ==> Did(log, u, (e: Entry) => e.port.ResolveEndpoint? && e.reply.text != "")) && Did(log, u, (e: Entry) => e.port.SavePublished?)
    case ReleaseQuota =>
      ManagedDelete(cfg) ==>
        && Did(log, u, (e: Entry) => e.port.LoadContext? && e.reply.text == cfg.id.operation) && Did(log, u, (e: Entry) => e.port.SendReport?)
        && (cfg.reportStore ==> Did(log, u, (e: Entry) => e.port.SaveReport? || (e.port.LoadReport? && e.reply.report.Some?)))
    case _ => true
  }

  lemma WithdrawalRequested(cfg: Config, log: seq<Entry>, k: nat)
    requires AllJustified(cfg, log) && k < |log| && log[k].port.ConfirmWithdrawn?
    ensures Did(log, log[k].token, (e: Entry) => e.port.SaveWithdrawing?) && Did(log, log[k].token, (e: Entry) => e.port.Withdraw?)
  {
    var requested := PriorCall(cfg, log, k, WithdrawRequested);
    var intent := PriorCall(cfg, log, k, WithdrawIntent);
  }

  lemma ExposureRequested(cfg: Config, log: seq<Entry>, k: nat)
    requires AllJustified(cfg, log) && k < |log| && log[k].port.ConfirmPublished?
    ensures Did(log, log[k].token, (e: Entry) => e.port.SavePublishing?) && Did(log, log[k].token, (e: Entry) => e.port.Expose?)
  {
    var requested := PriorCall(cfg, log, k, ExposeRequested);
    var intent := PriorCall(cfg, log, k, PublishIntent);
  }

  lemma WithdrawalDone(cfg: Config, log: seq<Entry>, u: Token)
    requires AllJustified(cfg, log) && Leave(cfg, WithdrawPublication) <= FactsBy(log[..|log|], u)
    ensures DoneBy(cfg, log, u, WithdrawPublication)
  {
    var saved := OwnCall(cfg, log, |log|, u, WithdrawSaved);
    var confirmed := PriorCall(cfg, log, saved, WithdrawConfirmed);
    WithdrawalRequested(cfg, log, confirmed);
  }

  lemma EndpointNamed(cfg: Config, log: seq<Entry>, k: nat)
    requires AllJustified(cfg, log) && k < |log| && log[k].port.SavePublished? && cfg.endpoints
    ensures Did(log, log[k].token, (e: Entry) => e.port.ResolveEndpoint? && e.reply.text != "")
  {
    var named := PriorCall(cfg, log, k, EndpointKnown);
  }

  lemma PublicationDone(cfg: Config, log: seq<Entry>, u: Token)
    requires AllJustified(cfg, log) && Leave(cfg, Publish) <= FactsBy(log[..|log|], u)
    ensures DoneBy(cfg, log, u, Publish)
  {
    var saved := OwnCall(cfg, log, |log|, u, PublishSaved);
    if cfg.endpoints {
      EndpointNamed(cfg, log, saved);
    }
    var confirmed := PriorCall(cfg, log, saved, PublishConfirmed);
    ExposureRequested(cfg, log, confirmed);
  }

  lemma MaterializationDone(cfg: Config, log: seq<Entry>, u: Token)
    requires AllJustified(cfg, log) && Leave(cfg, MaterializeModel) <= FactsBy(log[..|log|], u)
    ensures DoneBy(cfg, log, u, MaterializeModel)
  {
    var saved := OwnCall(cfg, log, |log|, u, ModelSaved);
    var ready := PriorCall(cfg, log, saved, ModelReady);
    var marked := PriorCall(cfg, log, ready, ModelMarked);
  }

  lemma AbsenceDone(cfg: Config, log: seq<Entry>, u: Token)
    requires AllJustified(cfg, log) && Leave(cfg, ObserveAbsence) <= FactsBy(log[..|log|], u)
    ensures DoneBy(cfg, log, u, ObserveAbsence)
  {
    var observed := OwnCall(cfg, log, |log|, u, AbsenceObserved);
    var saved := OwnCall(cfg, log, |log|, u, AbsenceSaved);
    if cfg.managedGpu && cfg.scopeStore {
      var sealing := OwnCall(cfg, log, |log|, u, Sealed);
    }
  }

  lemma ReportDone(cfg: Config, log: seq<Entry>, u: Token)
    requires AllJustified(cfg, log) && Leave(cfg, ReleaseQuota) <= FactsBy(log[..|log|], u)
    ensures DoneBy(cfg, log, u, ReleaseQuota)
  {
    if ManagedDelete(cfg) {
      var sent := OwnCall(cfg, log, |log|, u, ReportSent);
      var matched := PriorCall(cfg, log, sent, ContextMatched);
      if cfg.reportStore {
        var durable := PriorCall(cfg, log, sent, ReportDurable);
      }
    }
  }

  lemma ObservationDone(cfg: Config, log: seq<Entry>, u: Token)
    requires AllJustified(cfg, log) && Leave(cfg, ObserveRuntime) <= FactsBy(log[..|log|], u)
    ensures DoneBy(cfg, log, u, ObserveRuntime)
  {
    var ready := OwnCall(cfg, log, |log|, u, RuntimeReady);
    var saved := OwnCall(cfg, log, |log|, u, ReadySaved);
  }

  lemma RemovalDone(cfg: Config, log: seq<Entry>, u: Token)
    requires AllJustified(cfg, log) && Leave(cfg, DeleteCr) <= FactsBy(log[..|log|], u)
    ensures DoneBy(cfg, log, u, DeleteCr)
  {
    var removed := OwnCall(cfg, log, |log|, u, CrRemoved);
    var cleaned := OwnCall(cfg, log, |log|, u, ModelCleaned);
  }

  /** Whoever has learned what leaving a step takes has done what the step is for. */
  lemma LeavingIsDone(cfg: Config, log: seq<Entry>, u: Token, step: StepName)
    requires AllJustified(cfg, log) && Leave(cfg, step) <= FactsBy(log, u)
    ensures DoneBy(cfg, log, u, step)
  {
    assert log[..|log|] == log;
    match step
    case Admission =>
      var admitted := OwnCall(cfg, log, |log|, u, Admitted);
    case ApplyCr =>
      var applied := OwnCall(cfg, log, |log|, u, CrApplied);
    case MaterializeModel => MaterializationDone(cfg, log, u);
    case ApplyRuntime =>
      var applied := OwnCall(cfg, log, |log|, u, RuntimeApplied);
    case ObserveRuntime => ObservationDone(cfg, log, u);
    case WithdrawPublication => WithdrawalDone(cfg, log, u);
    case DeleteRuntime =>
      var accepted := OwnCall(cfg, log, |log|, u, DeleteAccepted);
    case ObserveAbsence => AbsenceDone(cfg, log, u);
    case DeleteCr => RemovalDone(cfg, log, u);
    case Publish => PublicationDone(cfg, log, u);
    case ReleaseQuota => ReportDone(cfg, log, u);
    case _ =>
  }

  /** Over every run: each step that the operation is past was done, completely, by one worker. */
  lemma PastStepsWereDone(s: State, moves: seq<Move>, step: StepName)
    requires Init(s) && step in s.cfg.path && step != ResolveGpu && !Run(s, moves).op.phase.Failed?
    requires StepIndex(s.cfg.path, step) < StepIndex(s.cfg.path, Run(s, moves).op.step)
    ensures exists u :: DoneBy(s.cfg, Run(s, moves).log, u, step)
  {
    RunKeepsInv(s, moves);
    var end := Run(s, moves);
    assert s.cfg.path[StepIndex(s.cfg.path, step)] == step;
    assert LeftBy(s.cfg, end.log, step);
    var u :| Leave(s.cfg, step) <= FactsBy(end.log, u);
    LeavingIsDone(s.cfg, end.log, u, step);
  }
}
