/** The managed GPU release over every run of the runner protocol: what is reported, when, and how often alike. */
module ReleaseSafety {
  import opened OperationSteps
  import opened ReleaseProof
  import opened RunnerProtocol
  import opened RunnerSafety

  ghost predicate Sealable(cfg: Config) {
    cfg.managedGpu && cfg.scopeStore
  }

  /** A logged report is the canonical one of a sealable managed delete. */
  ghost predicate ReportAt(cfg: Config, log: seq<Entry>, k: nat) {
    k < |log| && log[k].port.SendReport? ==> log[k].port.note == Canonical(cfg) && Sealable(cfg) && cfg.kind == Delete
  }

  ghost predicate WorkerTruthful(cfg: Config, w: Worker) {
    && (w.seal != "" ==> Sealable(cfg))
    && (w.report.Some? ==> w.report.value == Canonical(cfg) && Sealable(cfg))
  }

  ghost predicate StoreTruthful(cfg: Config, store: Store) {
    && (store.scope.seal != "" ==> Sealable(cfg))
    && (store.report.Some? ==> store.report.value.note == Canonical(cfg) && Sealable(cfg))
  }

  /** Only a sealable scope is sealed, and every stored, loaded or sent report is the canonical one. */
  ghost predicate Releases(s: State) {
    StoreTruthful(s.cfg, s.store) && AllTruthful(s.cfg, s.workers) && AllReports(s.cfg, s.log)
  }

  ghost predicate AllTruthful(cfg: Config, workers: map<Token, Worker>) {
    forall t :: t in workers ==> WorkerTruthful(cfg, workers[t])
  }

  ghost predicate AllReports(cfg: Config, log: seq<Entry>) {
    forall k: nat {:trigger ReportAt(cfg, log, k)} :: ReportAt(cfg, log, k)
  }

  lemma ReportsAppend(cfg: Config, log: seq<Entry>, e: Entry)
    requires AllReports(cfg, log)
    requires e.port.SendReport? ==> e.port.note == Canonical(cfg) && Sealable(cfg) && cfg.kind == Delete
    ensures AllReports(cfg, log + [e])
  {
    forall k: nat ensures ReportAt(cfg, log + [e], k) {
      assert ReportAt(cfg, log, k);
    }
  }

  /** One legal call: the store stays truthful, ... */
  lemma StoreStaysTruthful(cfg: Config, store: Store, w: Worker, p: Port)
    requires Argued(cfg, w, p) && StoreTruthful(cfg, store) && WorkerTruthful(cfg, w)
    ensures StoreTruthful(cfg, StoreEffect(store, p))
  {
  }

  /** ... the caller stays truthful, ... */
  lemma CallerStaysTruthful(cfg: Config, held: bool, store: Store, books: map<string, Reservation>, w: Worker, p: Port, r: Reply)
    requires Argued(cfg, w, p) && Fits(held, store, books, p, r) && StoreTruthful(cfg, store) && WorkerTruthful(cfg, w)
    ensures WorkerTruthful(cfg, Learned(cfg, w, p, r))
  {
  }

  /** ... and a report sent is the canonical one. */
  lemma SentIsCanonical(cfg: Config, w: Worker, p: Port)
    requires Argued(cfg, w, p) && WorkerTruthful(cfg, w) && p.SendReport?
    ensures p.note == Canonical(cfg) && Sealable(cfg) && cfg.kind == Delete
  {
  }

  lemma AllStayTruthful(cfg: Config, workers: map<Token, Worker>, t: Token, w: Worker)
    requires AllTruthful(cfg, workers) && WorkerTruthful(cfg, w)
    ensures AllTruthful(cfg, workers[t := w])
  {
  }

  lemma CallKeepsReleases(s: State, t: Token, p: Port, r: Reply)
    requires Releases(s) && MayCall(s, t, p, r)
    ensures Releases(DoCall(s, t, p, r))
  {
    var w := s.workers[t];
    StoreStaysTruthful(s.cfg, s.store, w, p);
    CallerStaysTruthful(s.cfg, Held(s, t), s.store, s.authority, w, p, r);
    AllStayTruthful(s.cfg, s.workers, t, Learned(s.cfg, w, p, r));
    if p.SendReport? {
      SentIsCanonical(s.cfg, w, p);
    }
    ReportsAppend(s.cfg, s.log, Entry(t, w.step, p, r, Gain(s.cfg, p, r), Held(s, t)));
  }

  lemma LoadKeepsReleases(s: State, t: Token)
    requires Releases(s) && Speaks(s, Load(t))
    ensures Releases(DoLoad(s, t))
  {
    AllStayTruthful(s.cfg, s.workers, t, DoLoad(s, t).workers[t]);
    ReportsAppend(s.cfg, s.log, LoadEntry(s, t));
  }

  lemma QuietKeepsReleases(s: State, s': State)
    requires Releases(s) && Quiet(s, s')
    ensures Releases(s')
  {
    forall t | t in s'.workers ensures WorkerTruthful(s.cfg, s'.workers[t]) {
      assert WorkerTruthful(s.cfg, s.workers[t]) && SameKnowledge(s.workers[t], s'.workers[t]);
    }
  }

  lemma StepKeepsReleases(s: State, m: Move)
    requires Releases(s)
    ensures Releases(Step(s, m))
  {
    if !Speaks(s, m) {
      OtherMovesAreQuiet(s, m);
      QuietKeepsReleases(s, Step(s, m));
    } else if m.Load? {
      LoadKeepsReleases(s, m.token);
    } else {
      CallKeepsReleases(s, m.token, m.port, m.reply);
    }
  }

  lemma {:induction false} RunKeepsReleases(s: State, moves: seq<Move>)
    requires Init(s)
    ensures Releases(Run(s, moves))
  {
    if moves != [] {
      RunKeepsReleases(s, moves[..|moves| - 1]);
      StepKeepsReleases(Run(s, moves[..|moves| - 1]), moves[|moves| - 1]);
    }
  }

  /** One worker saw the runtime absent, in its only observation, saved that, and then saved a seal. */
  ghost predicate SealedBy(log: seq<Entry>, observed: nat, saved: nat, sealed: nat) {
    && observed < saved < sealed < |log| && SawAbsent(log, observed)
    && log[saved].token == log[observed].token && log[saved].port.SaveAbsent? && !log[saved].reply.failed
    && log[sealed].token == log[observed].token && log[sealed].port.SaveScope? && !log[sealed].reply.failed && log[sealed].port.seal != ""
  }

  lemma SealedBefore(cfg: Config, log: seq<Entry>, k: nat) returns (observed: nat, saved: nat, sealed: nat)
    requires GoodPath(cfg.path) && AllJustified(cfg, log) && k < |log| && Precedes(cfg.path, ObserveAbsence, log[k].step) && Sealable(cfg)
    ensures sealed < k && SealedBy(log, observed, saved, sealed)
  {
    var u := EarlierWorker(cfg, log, k, ObserveAbsence);
    observed := AbsenceSeen(cfg, log, k, u);
    sealed := OwnCall(cfg, log, k, u, Sealed);
    SameStep(cfg, log, observed, sealed);
    LoggedStep(cfg, log, observed);
    OnlyStep(log[observed].port, log[observed].step);
    saved := PriorCall(cfg, log, sealed, AbsenceSaved);
    SavedAfterLook(cfg, log, saved, observed);
  }

  lemma ReportFacts(s: State, moves: seq<Move>, k: nat)
    requires Init(s) && k < |Run(s, moves).log| && Run(s, moves).log[k].port.SendReport?
    ensures AllJustified(s.cfg, Run(s, moves).log) && Run(s, moves).log[k].step == ReleaseQuota && ReleaseQuota in s.cfg.path
    ensures Run(s, moves).log[k].port.note == Canonical(s.cfg) && Sealable(s.cfg)
  {
    LogIsJustified(s, moves);
    LoggedStep(s.cfg, Run(s, moves).log, k);
    OnlyStep(Run(s, moves).log[k].port, Run(s, moves).log[k].step);
    RunKeepsReleases(s, moves);
    RunKeepsInv(s, moves);
    assert ReportAt(s.cfg, Run(s, moves).log, k);
  }

  /** A release is reported only after one worker of this operation observed absence, saved that, and then saved the seal. */
  lemma ReportAfterSeal(s: State, moves: seq<Move>, k: nat) returns (observed: nat, saved: nat, sealed: nat)
    requires Init(s) && k < |Run(s, moves).log| && Run(s, moves).log[k].port.SendReport?
    ensures sealed < k && SealedBy(Run(s, moves).log, observed, saved, sealed)
  {
    ReportFacts(s, moves, k);
    observed, saved, sealed := SealedBefore(s.cfg, Run(s, moves).log, k);
  }

  lemma SendNeeds(cfg: Config, step: StepName, note: Notification)
    ensures ContextMatched in Prior(cfg, step, SendReport(note)) && (cfg.reportStore ==> ReportDurable in Prior(cfg, step, SendReport(note)))
  {
  }

  lemma DurableIsSaved(cfg: Config, p: Port, r: Reply)
    requires Teaches(cfg, p, r, ReportDurable)
    ensures !r.failed && (p.SaveReport? || (p.LoadReport? && r.report.Some?))
  {
  }

  /** With a report store, the sender first saved the report with its evidence, or found it saved. */
  lemma ReportDurableFirst(s: State, moves: seq<Move>, k: nat) returns (durable: nat)
    requires Init(s) && k < |Run(s, moves).log| && Run(s, moves).log[k].port.SendReport? && s.cfg.reportStore
    ensures var log := Run(s, moves).log;
            && durable < k && log[durable].token == log[k].token && !log[durable].reply.failed
            && (log[durable].port.SaveReport? || (log[durable].port.LoadReport? && log[durable].reply.report.Some?))
  {
    var log := Run(s, moves).log;
    LogIsJustified(s, moves);
    SendNeeds(s.cfg, log[k].step, log[k].port.note);
    durable := PriorCall(s.cfg, log, k, ReportDurable);
    DurableIsSaved(s.cfg, log[durable].port, log[durable].reply);
  }

  /** The sender first found the persisted refund context to name this very operation. */
  lemma ReportAfterContext(s: State, moves: seq<Move>, k: nat) returns (context: nat)
    requires Init(s) && k < |Run(s, moves).log| && Run(s, moves).log[k].port.SendReport?
    ensures var log := Run(s, moves).log;
            && context < k && log[context].token == log[k].token && log[context].port.LoadContext?
            && !log[context].reply.failed && log[context].reply.text == s.cfg.id.operation != ""
  {
    LogIsJustified(s, moves);
    SendNeeds(s.cfg, Run(s, moves).log[k].step, Run(s, moves).log[k].port.note);
    context := PriorCall(s.cfg, Run(s, moves).log, k, ContextMatched);
  }

  /** All reports ever sent, over any crashes and retries, agree in all four fields. */
  lemma ReportsIdentical(s: State, moves: seq<Move>, j: nat, k: nat)
    requires Init(s) && j < |Run(s, moves).log| && k < |Run(s, moves).log|
    requires Run(s, moves).log[j].port.SendReport? && Run(s, moves).log[k].port.SendReport?
    ensures Run(s, moves).log[j].port.note == Run(s, moves).log[k].port.note == Canonical(s.cfg)
  {
    ReportFacts(s, moves, j);
    ReportFacts(s, moves, k);
  }

  lemma StepKeepsReport(s: State, m: Move)
    requires s.store.report.Some?
    ensures Step(s, m).store.report == s.store.report
  {
    if !Speaks(s, m) {
      OtherMovesAreQuiet(s, m);
    }
  }

  /** A persisted report, evidence included, is the same at every later state of every run. */
  lemma {:induction false} ReportNeverChanges(s: State, moves: seq<Move>, at: nat)
    requires at <= |moves| && Run(s, moves[..at]).store.report.Some?
    ensures Run(s, moves).store.report == Run(s, moves[..at]).store.report
    decreases |moves|
  {
    if at == |moves| {
      assert moves[..at] == moves;
    } else {
      var before := moves[..|moves| - 1];
      assert before[..at] == moves[..at];
      ReportNeverChanges(s, before, at);
      StepKeepsReport(Run(s, before), moves[|moves| - 1]);
    }
  }

  /** Recorded Pods are never forgotten, and their UIDs stay distinct. */
  lemma PodsOnlyGrow(s: State, m: Move)
    ensures s.store.scope.pods <= Step(s, m).store.scope.pods
    ensures DistinctUids(s.store.scope.pods) ==> DistinctUids(Step(s, m).store.scope.pods)
  {
    if !Speaks(s, m) {
      OtherMovesAreQuiet(s, m);
    }
  }
}
