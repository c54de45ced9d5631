/**
 The absence seal over every run of the runner protocol: who chose it, when it may change, and whose seal
 a release report carries.
 */
module SealSafety {
  import opened Text
  import opened OperationSteps
  import opened RunnerProtocol
  import opened RunnerSafety
  import opened ReleaseSafety

  // ---- Who chose the seal ----

  /** The worker was shown an unsealed scope. */
  ghost predicate LoadedUnsealed(log: seq<Entry>, t: Token) {
    exists i :: 0 <= i < |log| && log[i].token == t && log[i].port.LoadOperation? && log[i].reply.text == ""
  }

  /** Entry `j` saves a seal of the saver's own: it was shown an unsealed scope and has observed absence. */
  ghost predicate Chosen(log: seq<Entry>, j: nat) {
    && j < |log| && log[j].port.SaveScope? && log[j].port.seal != ""
    && LoadedUnsealed(log[..j], log[j].token) && AbsenceObserved in FactsBy(log[..j], log[j].token)
  }

  ghost predicate ChosenSeal(log: seq<Entry>, seal: string) {
    exists j: nat :: Chosen(log, j) && log[j].port.seal == seal
  }

  /** A seal is none, the one the operation began with, or one that a worker of the operation chose. */
  ghost predicate Traced(log: seq<Entry>, first: string, seal: string) {
    seal == "" || seal == first || (first == "" && ChosenSeal(log, seal))
  }

  ghost predicate WorkerTraced(log: seq<Entry>, first: string, t: Token, w: Worker) {
    Traced(log, first, w.seal) && (w.seal == "" ==> LoadedUnsealed(log, t))
  }

  ghost predicate AllTraced(log: seq<Entry>, first: string, workers: map<Token, Worker>) {
    forall t :: t in workers ==> WorkerTraced(log, first, t, workers[t])
  }

  /** A seal that was there from the beginning is what every load shows. */
  ghost predicate LoadShows(log: seq<Entry>, first: string, i: nat) {
    i < |log| && log[i].port.LoadOperation? && first != "" ==> log[i].reply.text == first
  }

  ghost predicate AllShow(log: seq<Entry>, first: string) {
    forall i: nat {:trigger LoadShows(log, first, i)} :: LoadShows(log, first, i)
  }

  /** A report about to be saved carries a traced seal. */
  ghost predicate ReportTraced(log: seq<Entry>, first: string, k: nat) {
    k < |log| && log[k].port.SaveReport? ==>
      exists seal :: !Blank(seal) && Traced(log[..k], first, seal) && log[k].port.report.evidence.payload.sealedAt == Trim(seal)
  }

  ghost predicate AllReportsTraced(log: seq<Entry>, first: string) {
    forall k: nat {:trigger ReportTraced(log, first, k)} :: ReportTraced(log, first, k)
  }

  ghost predicate Origins(s: State, first: string) {
    && Traced(s.log, first, s.store.scope.seal) && (first != "" ==> s.store.scope.seal == first)
    && AllTraced(s.log, first, s.workers) && AllShow(s.log, first) && AllReportsTraced(s.log, first)
  }

  lemma ChosenAppend(log: seq<Entry>, e: Entry, j: nat)
    ensures Chosen(log, j) ==> Chosen(log + [e], j)
    ensures j < |log| && Chosen(log + [e], j) ==> Chosen(log, j)
  {
    if j < |log| {
      assert (log + [e])[..j] == log[..j];
    }
  }

  lemma TracedAppend(log: seq<Entry>, e: Entry, first: string, seal: string)
    requires Traced(log, first, seal)
    ensures Traced(log + [e], first, seal)
  {
    if seal != "" && seal != first {
      var j: nat :| Chosen(log, j) && log[j].port.seal == seal;
      ChosenAppend(log, e, j);
    }
  }

  lemma WorkerTracedAppend(log: seq<Entry>, e: Entry, first: string, t: Token, w: Worker)
    requires WorkerTraced(log, first, t, w)
    ensures WorkerTraced(log + [e], first, t, w)
  {
    TracedAppend(log, e, first, w.seal);
    if w.seal == "" {
      var i :| 0 <= i < |log| && log[i].token == t && log[i].port.LoadOperation? && log[i].reply.text == "";
      assert (log + [e])[i] == log[i];
    }
  }

  lemma AllTracedAppend(log: seq<Entry>, e: Entry, first: string, workers: map<Token, Worker>, t: Token, w: Worker)
    requires AllTraced(log, first, workers) && WorkerTraced(log + [e], first, t, w)
    ensures AllTraced(log + [e], first, workers[t := w])
  {
    var workers' := workers[t := w];
    forall u | u in workers' ensures WorkerTraced(log + [e], first, u, workers'[u]) {
      if u != t {
        WorkerTracedAppend(log, e, first, u, workers[u]);
      }
    }
  }

  lemma ShowAppend(log: seq<Entry>, e: Entry, first: string)
    requires AllShow(log, first) && (e.port.LoadOperation? && first != "" ==> e.reply.text == first)
    ensures AllShow(log + [e], first)
  {
    forall i: nat ensures LoadShows(log + [e], first, i) {
      assert LoadShows(log, first, i);
    }
  }

  lemma ReportsTracedAppend(log: seq<Entry>, e: Entry, first: string, seal: string)
    requires AllReportsTraced(log, first)
    requires e.port.SaveReport? ==> !Blank(seal) && Traced(log, first, seal) && e.port.report.evidence.payload.sealedAt == Trim(seal)
    ensures AllReportsTraced(log + [e], first)
  {
    forall k: nat ensures ReportTraced(log + [e], first, k) {
      assert ReportTraced(log, first, k);
      if k <= |log| {
        assert (log + [e])[..k] == log[..k];
        assert log[..|log|] == log;
      }
    }
  }

  /** A legal save repeats the worker's seal, or is chosen. */
  lemma SavedIsTraced(cfg: Config, log: seq<Entry>, first: string, t: Token, w: Worker, e: Entry)
    requires WorkerTraced(log, first, t, w) && w.facts == FactsBy(log, t) && AllShow(log, first)
    requires e.token == t && e.port.SaveScope? && Argued(cfg, w, e.port)
    ensures Traced(log + [e], first, e.port.seal) && (first != "" && e.port.seal != "" ==> e.port.seal == first)
  {
    if e.port.seal != "" && w.seal == "" {
      var i :| 0 <= i < |log| && log[i].token == t && log[i].port.LoadOperation? && log[i].reply.text == "";
      assert LoadShows(log, first, i);
      assert (log + [e])[..|log|] == log;
      assert Chosen(log + [e], |log|);
    } else {
      TracedAppend(log, e, first, w.seal);
    }
  }

  lemma StoreStaysTraced(cfg: Config, log: seq<Entry>, first: string, store: Store, t: Token, w: Worker, e: Entry)
    requires WorkerTraced(log, first, t, w) && w.facts == FactsBy(log, t) && AllShow(log, first) && e.token == t && Argued(cfg, w, e.port)
    requires Traced(log, first, store.scope.seal) && (first != "" ==> store.scope.seal == first)
    ensures var seal := StoreEffect(store, e.port).scope.seal;
            Traced(log + [e], first, seal) && (first != "" ==> seal == first)
  {
    TracedAppend(log, e, first, store.scope.seal);
    if e.port.SaveScope? {
      SavedIsTraced(cfg, log, first, t, w, e);
    }
  }

  lemma CallerStaysTraced(cfg: Config, log: seq<Entry>, first: string, t: Token, w: Worker, e: Entry)
    requires WorkerTraced(log, first, t, w) && w.facts == FactsBy(log, t) && AllShow(log, first) && e.token == t && Argued(cfg, w, e.port)
    ensures WorkerTraced(log + [e], first, t, Learned(cfg, w, e.port, e.reply))
  {
    WorkerTracedAppend(log, e, first, t, w);
    if e.port.SaveScope? {
      SavedIsTraced(cfg, log, first, t, w, e);
    }
  }

  lemma CallTraces(s: State, t: Token, p: Port, r: Reply, first: string)
    requires Origins(s, first) && MayCall(s, t, p, r) && s.workers[t].facts == FactsBy(s.log, t)
    ensures Origins(DoCall(s, t, p, r), first)
  {
    var w := s.workers[t];
    var e := Entry(t, w.step, p, r, Gain(s.cfg, p, r), Held(s, t));
    StoreStaysTraced(s.cfg, s.log, first, s.store, t, w, e);
    TracedAppend(s.log, e, first, s.store.scope.seal);
    CallerStaysTraced(s.cfg, s.log, first, t, w, e);
    AllTracedAppend(s.log, e, first, s.workers, t, Learned(s.cfg, w, p, r));
    ShowAppend(s.log, e, first);
    ReportsTracedAppend(s.log, e, first, w.seal);
  }

  lemma LoadTraces(s: State, t: Token, first: string)
    requires Origins(s, first) && Speaks(s, Load(t))
    ensures Origins(DoLoad(s, t), first)
  {
    var e := LoadEntry(s, t);
    TracedAppend(s.log, e, first, s.store.scope.seal);
    assert (s.log + [e])[|s.log|] == e;
    AllTracedAppend(s.log, e, first, s.workers, t, DoLoad(s, t).workers[t]);
    ShowAppend(s.log, e, first);
    ReportsTracedAppend(s.log, e, first, "");
  }

  lemma QuietTraces(s: State, s': State, first: string)
    requires Origins(s, first) && Quiet(s, s')
    ensures Origins(s', first)
  {
    forall t | t in s'.workers ensures WorkerTraced(s.log, first, t, s'.workers[t]) {
      assert WorkerTraced(s.log, first, t, s.workers[t]) && SameKnowledge(s.workers[t], s'.workers[t]);
    }
  }

  lemma {:induction false} RunTraces(s: State, moves: seq<Move>)
    requires Init(s)
    ensures Origins(Run(s, moves), s.store.scope.seal)
  {
    if moves != [] {
      var before, m, first := Run(s, moves[..|moves| - 1]), moves[|moves| - 1], s.store.scope.seal;
      RunTraces(s, moves[..|moves| - 1]);
      if !Speaks(before, m) {
        OtherMovesAreQuiet(before, m);
        QuietTraces(before, Step(before, m), first);
      } else if m.Load? {
        LoadTraces(before, m.token, first);
      } else {
        RunKeepsInv(s, moves[..|moves| - 1]);
        CallTraces(before, m.token, m.port, m.reply, first);
      }
    }
  }

  /** Where the operation began with a seal, no worker chooses one. */
  lemma NoneChosen(log: seq<Entry>, first: string, j: nat)
    requires AllShow(log, first) && first != ""
    ensures !Chosen(log, j)
  {
    forall i: nat | i < |log| && log[i].port.LoadOperation? ensures log[i].reply.text == first {
      assert LoadShows(log, first, i);
    }
  }

  /** The report of entry `k` carries a seal that a worker of this very operation chose before, having observed absence. */
  ghost predicate FreshlySealed(log: seq<Entry>, k: nat)
    requires k < |log| && log[k].port.SaveReport?
  {
    exists j: nat :: j < k && Chosen(log, j) && log[k].port.report.evidence.payload.sealedAt == Trim(log[j].port.seal)
  }

  lemma ChosenBefore(log: seq<Entry>, k: nat, seal: string) returns (j: nat)
    requires k <= |log| && ChosenSeal(log[..k], seal)
    ensures j < k && Chosen(log, j) && log[j].port.seal == seal
  {
    j :| Chosen(log[..k], j) && log[..k][j].port.seal == seal;
    assert log[..k][..j] == log[..j];
  }

  lemma FreshIfUnsealed(log: seq<Entry>, k: nat)
    requires k < |log| && log[k].port.SaveReport? && ReportTraced(log, "", k)
    ensures FreshlySealed(log, k)
  {
    var seal :| !Blank(seal) && Traced(log[..k], "", seal) && log[k].port.report.evidence.payload.sealedAt == Trim(seal);
    var j := ChosenBefore(log, k, seal);
  }

  /** Every report saved carries a seal chosen in this operation if that began unsealed, and the old seal if not. */
  lemma ReportSeal(s: State, moves: seq<Move>, k: nat)
    requires Init(s) && k < |Run(s, moves).log| && Run(s, moves).log[k].port.SaveReport?
    ensures FreshlySealed(Run(s, moves).log, k) <==> s.store.scope.seal == ""
    ensures s.store.scope.seal != "" ==> Run(s, moves).log[k].port.report.evidence.payload.sealedAt == Trim(s.store.scope.seal)
  {
    var log, first := Run(s, moves).log, s.store.scope.seal;
    RunTraces(s, moves);
    assert ReportTraced(log, first, k);
    if first == "" {
      FreshIfUnsealed(log, k);
    } else {
      forall j: nat ensures !Chosen(log, j) {
        NoneChosen(log, first, j);
      }
    }
  }

  // ---- One operation after another ----

  /** A seal that was there from the beginning stays on every run. */
  lemma OldSealStays(s: State, moves: seq<Move>)
    requires Init(s) && s.store.scope.seal != ""
    ensures Run(s, moves).store.scope.seal == s.store.scope.seal
  {
    RunTraces(s, moves);
  }

  /** Where somebody learned that a seal was saved, one is stored. */
  ghost predicate SealStored(s: State) {
    Sealed in FactsOf(s.log) ==> s.store.scope.seal != ""
  }

  lemma StoredAsTaught(cfg: Config, held: bool, store: Store, books: map<string, Reservation>, p: Port, r: Reply)
    requires Fits(held, store, books, p, r)
    ensures store.scope.seal != "" ==> StoreEffect(store, p).scope.seal != ""
    ensures Teaches(cfg, p, r, Sealed) ==> !r.failed && StoreEffect(store, p).scope.seal != ""
  {
  }

  lemma CallKeepsStored(s: State, t: Token, p: Port, r: Reply)
    requires SealStored(s) && MayCall(s, t, p, r)
    ensures SealStored(DoCall(s, t, p, r))
  {
    FactsAppend(s.log, Entry(t, s.workers[t].step, p, r, Gain(s.cfg, p, r), Held(s, t)), t);
    StoredAsTaught(s.cfg, Held(s, t), s.store, s.authority, p, r);
  }

  lemma StepKeepsStored(s: State, m: Move)
    requires SealStored(s)
    ensures SealStored(Step(s, m))
  {
    if !Speaks(s, m) {
      OtherMovesAreQuiet(s, m);
    } else if m.Load? {
      FactsAppend(s.log, LoadEntry(s, m.token), m.token);
    } else {
      CallKeepsStored(s, m.token, m.port, m.reply);
    }
  }

  lemma {:induction false} RunKeepsStored(s: State, moves: seq<Move>)
    requires Init(s)
    ensures SealStored(Run(s, moves))
  {
    if moves != [] {
      RunKeepsStored(s, moves[..|moves| - 1]);
      StepKeepsStored(Run(s, moves[..|moves| - 1]), moves[|moves| - 1]);
    }
  }

  lemma AbsenceLeavesSeal(cfg: Config, log: seq<Entry>)
    requires GoodPath(cfg.path) && ObserveAbsence in cfg.path && Sealable(cfg) && EarlierLeft(cfg, Complete, log)
    ensures Sealed in FactsOf(log)
  {
    IndexOf(cfg.path, |cfg.path| - 1);
    var i := StepIndex(cfg.path, ObserveAbsence);
    assert cfg.path[i] == ObserveAbsence;
    assert LeftBy(cfg, log, ObserveAbsence);
    LeftIsLearned(cfg, log, ObserveAbsence);
  }

  /** An operation with an absence step that succeeded leaves the scope sealed. */
  lemma SuccessLeavesSeal(s: State, moves: seq<Move>)
    requires Init(s) && Sealable(s.cfg) && ObserveAbsence in s.cfg.path && Run(s, moves).op.phase.Succeeded?
    ensures Run(s, moves).store.scope.seal != ""
  {
    RunKeepsInv(s, moves);
    RunKeepsStored(s, moves);
    AbsenceLeavesSeal(s.cfg, Run(s, moves).log);
  }

  /**
   The scope is stored under the create operation and outlives an operation. After a stop (or update or
   restart) that succeeded, whatever a start then did, a delete reports the seal of that stop, and not one
   of the absence it observed itself.
   */
  lemma DeleteReportsSealOfStop(stop: State, stopped: seq<Move>, start: State, started: seq<Move>, delete: State, moves: seq<Move>, k: nat)
    requires Init(stop) && Sealable(stop.cfg) && ObserveAbsence in stop.cfg.path && Run(stop, stopped).op.phase.Succeeded?
    requires Init(start) && start.store.scope == Run(stop, stopped).store.scope
    requires Init(delete) && delete.store.scope == Run(start, started).store.scope
    requires k < |Run(delete, moves).log| && Run(delete, moves).log[k].port.SaveReport?
    ensures Run(delete, moves).log[k].port.report.evidence.payload.sealedAt == Trim(Run(stop, stopped).store.scope.seal)
    ensures !FreshlySealed(Run(delete, moves).log, k)
  {
    SuccessLeavesSeal(stop, stopped);
    OldSealStays(start, started);
    ReportSeal(delete, moves, k);
  }

  // ---- When the seal may change ----

  /** A seal saved by a worker that no longer holds the lease, which the scope write does not check. */
  predicate StaleSeal(s: State, m: Move) {
    m.Call? && m.port.SaveScope? && m.port.seal != "" && !Held(s, m.token)
  }

  /** A working lease holder knows the stored seal. */
  ghost predicate HolderKnowsSeal(s: State) {
    forall t :: t in s.workers && Held(s, t) && !s.workers[t].done && s.store.scope.seal != "" ==> s.workers[t].seal == s.store.scope.seal
  }

  lemma QuietKeepsHolders(s: State, m: Move, t: Token)
    requires s.workers.Keys <= s.lease.used && !Speaks(s, m) && t in s.workers
    ensures Held(Step(s, m), t) && t in Step(s, m).workers && !Step(s, m).workers[t].done ==> Held(s, t) && !s.workers[t].done
  {
    match m
    case Claim(u) =>
    case Advance(u, phase, step) =>
    case Fail(u) =>
    case Retry(u, phase, step) =>
    case _ =>
  }

  lemma CallKeepsSeal(s: State, t: Token, p: Port, r: Reply)
    requires HolderKnowsSeal(s) && MayCall(s, t, p, r) && (p.SaveScope? && p.seal != "" ==> Held(s, t))
    ensures HolderKnowsSeal(DoCall(s, t, p, r))
    ensures s.store.scope.seal != "" ==> DoCall(s, t, p, r).store.scope.seal == s.store.scope.seal
  {
  }

  /** Without a stale save the stored seal, once set, stays: lease holders repeat it. */
  lemma SealKept(s: State, m: Move)
    requires Inv(s) && HolderKnowsSeal(s) && !StaleSeal(s, m)
    ensures HolderKnowsSeal(Step(s, m))
    ensures s.store.scope.seal != "" ==> Step(s, m).store.scope.seal == s.store.scope.seal
  {
    if !Speaks(s, m) {
      OtherMovesAreQuiet(s, m);
      forall t | t in s.workers && Held(Step(s, m), t) && !Step(s, m).workers[t].done ensures Held(s, t) && !s.workers[t].done {
        QuietKeepsHolders(s, m, t);
      }
    } else if m.Call? {
      CallKeepsSeal(s, m.token, m.port, m.reply);
    }
  }

  /** A call that replaces the stored seal by another. */
  predicate ReplacesSeal(s: State, m: Move) {
    && StaleSeal(s, m) && MayCall(s, m.token, m.port, m.reply)
    && (!m.reply.failed || m.reply.applied) && m.port.seal != s.store.scope.seal
  }

  lemma StaleSaveReplaces(s: State, m: Move)
    requires StaleSeal(s, m) && s.store.scope.seal != ""
    ensures Step(s, m).store.scope.seal != s.store.scope.seal <==> ReplacesSeal(s, m)
  {
  }

  /** While holders know the seal, a set seal changes exactly by an effective save of another seal without the lease. */
  lemma OnlyStaleSavesReplace(s: State, m: Move)
    requires Inv(s) && HolderKnowsSeal(s) && s.store.scope.seal != ""
    ensures Step(s, m).store.scope.seal != s.store.scope.seal <==> ReplacesSeal(s, m)
  {
    if StaleSeal(s, m) {
      StaleSaveReplaces(s, m);
    } else {
      SealKept(s, m);
    }
  }

  ghost predicate StaleAt(s: State, moves: seq<Move>, i: nat) {
    i < |moves| && StaleSeal(Run(s, moves[..i]), moves[i])
  }

  ghost predicate NoStaleSeals(s: State, moves: seq<Move>) {
    forall i: nat {:trigger StaleAt(s, moves, i)} :: !StaleAt(s, moves, i)
  }

  lemma NoStaleBefore(s: State, moves: seq<Move>)
    requires moves != [] && NoStaleSeals(s, moves)
    ensures NoStaleSeals(s, moves[..|moves| - 1]) && !StaleSeal(Run(s, moves[..|moves| - 1]), moves[|moves| - 1])
  {
    var before := moves[..|moves| - 1];
    assert !StaleAt(s, moves, |before|);
    forall i: nat ensures !StaleAt(s, before, i) {
      assert !StaleAt(s, moves, i);
      if i < |before| {
        assert before[..i] == moves[..i];
      }
    }
  }

  lemma {:induction false} HoldersKnowSeal(s: State, moves: seq<Move>)
    requires Init(s) && NoStaleSeals(s, moves)
    ensures HolderKnowsSeal(Run(s, moves))
  {
    if moves != [] {
      var before := moves[..|moves| - 1];
      NoStaleBefore(s, moves);
      HoldersKnowSeal(s, before);
      RunKeepsInv(s, before);
      SealKept(Run(s, before), moves[|moves| - 1]);
    }
  }

  /** Over a run without stale saves the seal, once set, is the same at every later state. */
  lemma {:induction false} SealNeverChanges(s: State, moves: seq<Move>, at: nat)
    requires Init(s) && at <= |moves| && NoStaleSeals(s, moves)
    ensures Run(s, moves[..at]).store.scope.seal != "" ==> Run(s, moves).store.scope.seal == Run(s, moves[..at]).store.scope.seal
    decreases |moves|
  {
    if at == |moves| {
      assert moves[..at] == moves;
    } else {
      var before := moves[..|moves| - 1];
      NoStaleBefore(s, moves);
      assert before[..at] == moves[..at];
      SealNeverChanges(s, before, at);
      HoldersKnowSeal(s, before);
      RunKeepsInv(s, before);
      SealKept(Run(s, before), moves[|moves| - 1]);
    }
  }
}
