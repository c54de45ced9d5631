/**
 When the absence seal keeps its meaning, exactly: a report proves the absence of its own delete if and only
 if the operation began unsealed, and the stored seal is fixed on every run if and only if it did not.
 */
module SealExactness {
  import opened Text
  import opened OperationSteps
  import opened Sorting
  import opened ReleaseProof
  import opened RunnerProtocol
  import opened ReleaseSafety
  import opened SealSafety
  import opened RunnerWitness

  // ---- Whose absence a report proves ----

  /** A freshly accepted, current, managed delete that reports its release. */
  ghost predicate ReportsRelease(s: State) {
    && Init(s) && s.lease.current && s.cfg.kind == Delete && s.cfg.path == Path(Delete)
    && Sealable(s.cfg) && s.cfg.reportStore && s.cfg.id.operation != ""
  }

  lemma DeletePath()
    ensures var path := Path(Delete);
            Vacates(path) && |path| == 6 && path[3] == DeleteCr
  {
  }

  lemma MayReseal(cfg: Config, w: Worker, seal: string)
    requires !w.done && w.phase == Running && w.step == ObserveAbsence && w.seen == [] && Sealable(cfg) && seal != ""
    requires {Looked, AbsenceObserved, AbsenceSaved} <= w.facts && (w.seal == "" || w.seal == seal)
    ensures Legal(cfg, w, SaveScope(seal, [])) && Teaches(cfg, SaveScope(seal, []), Good(cfg.id.operation), Sealed)
  {
  }

  lemma SavingSeals(store: Store, seal: string)
    requires seal != ""
    ensures StoreEffect(store, SaveScope(seal, [])) == store.(scope := Scope(seal, store.scope.pods))
    ensures SavedScope(store.scope, seal, []).Some?
  {
  }

  /** The holder of the lease, having seen absence, saves a seal. */
  lemma Seals(reached: State -> bool, s: State, t: Token, seal: string) returns (s': State)
    requires Closed(reached) && reached(s) && SawIt(s, t) && Sealable(s.cfg) && seal != "" && (s.workers[t].seal == "" || s.workers[t].seal == seal)
    ensures reached(s') && Works(s', t) && Beside(s, s', t) && s'.workers[t].step == ObserveAbsence
    ensures Leave(s.cfg, ObserveAbsence) <= s'.workers[t].facts
    ensures s'.authority == s.authority && s'.store == s.store.(scope := Scope(seal, s.store.scope.pods))
  {
    MayReseal(s.cfg, s.workers[t], seal);
    SavingSeals(s.store, seal);
    s' := Says(reached, s, t, SaveScope(seal, []), Good(s.cfg.id.operation));
  }

  lemma MayRescope(cfg: Config, w: Worker)
    requires !w.done && w.phase == Running && w.step in {ObserveAbsence, ReleaseQuota} && Sealable(cfg) && w.pods == []
    ensures Legal(cfg, w, LoadScope)
  {
  }

  /** A worker without Pods at hand reads the scope again. */
  lemma Rescopes(reached: State -> bool, s: State, t: Token) returns (s': State)
    requires Closed(reached) && reached(s) && Works(s, t) && s.workers[t].step in {ObserveAbsence, ReleaseQuota} && Sealable(s.cfg)
    ensures reached(s') && Works(s', t) && s'.cfg == s.cfg && s'.store == s.store && s'.authority == s.authority
    ensures var w, w' := s.workers[t], s'.workers[t];
            && w'.step == w.step && w'.seal == w.seal && w'.seen == w.seen && w.facts <= w'.facts
            && w'.pods == if w.pods == [] then s.store.scope.pods else w.pods
  {
    s' := s;
    if s.workers[t].pods == [] {
      MayRescope(s.cfg, s.workers[t]);
      s' := Says(reached, s, t, LoadScope, Good(s.cfg.id.operation).(pods := s.store.scope.pods));
    }
  }

  /** Past the absence step of a sealed delete, the records are unchanged. */
  lemma PassesSealed(reached: State -> bool, s: State) returns (s': State)
    requires Closed(reached) && reached(s) && Waits(s, ObserveAbsence) && GoodPath(s.cfg.path) && Vacates(s.cfg.path) && |s.cfg.path| > 4
    requires Sealable(s.cfg) && s.store.scope.seal != ""
    ensures reached(s') && CameTo(s, s', s.cfg.path[3])
  {
    var t, a := AtAbsence(reached, s);
    a := Seals(reached, a, t, s.store.scope.seal);
    a := Rescopes(reached, a, t);
    s' := Advances(reached, a, t, 2);
  }

  lemma ReachesReport(reached: State -> bool, s: State) returns (s': State)
    requires Closed(reached) && reached(s) && ReportsRelease(s) && s.store.scope.seal != ""
    ensures reached(s') && CameTo(s, s', ReleaseQuota)
  {
    DeletePath();
    s' := Vacated(reached, s);
    s' := PassesSealed(reached, s');
    s' := RemovesCr(reached, s');
  }

  /** The report a worker builds for its operation from the persisted scope. */
  function Reporting(cfg: Config, scope: Scope): Report {
    Report(Proof(cfg.id.operation, ProofInput(cfg, scope.seal, Sorted(scope.pods, Uid))), Canonical(cfg))
  }

  lemma MaySaveReport(cfg: Config, w: Worker, scope: Scope)
    requires !w.done && w.phase == Running && w.step == ReleaseQuota && {ContextMatched, NoReport} <= w.facts && Scope(w.seal, w.pods) == scope && !Blank(scope.seal)
    requires cfg.reportStore && ManagedDelete(cfg)
    ensures Legal(cfg, w, SaveReport(Reporting(cfg, scope)))
  {
    SortedAttests(cfg, w);
  }

  lemma SortedAttests(cfg: Config, w: Worker)
    ensures Attests(cfg, w, Reporting(cfg, Scope(w.seal, w.pods)).evidence)
  {
  }

  /** A delete that finds the scope sealed can save a report with that seal. */
  lemma CanReport(reached: State -> bool, s: State) returns (s': State)
    requires Closed(reached) && reached(s) && ReportsRelease(s) && !Blank(s.store.scope.seal)
    ensures reached(s') && s'.log != [] && s'.log[|s'.log| - 1].port == SaveReport(Reporting(s.cfg, s.store.scope))
  {
    var a := ReachesReport(reached, s);
    var t;
    t, s' := SavesReport(reached, a);
  }

  lemma MatchesContext(reached: State -> bool, s: State) returns (t: Token, s': State)
    requires Closed(reached) && reached(s) && Waits(s, ReleaseQuota) && s.cfg.id.operation != "" && Sealable(s.cfg)
    ensures reached(s') && Works(s', t) && s'.cfg == s.cfg && s'.store == s.store
    ensures s'.workers[t].step == ReleaseQuota && ContextMatched in s'.workers[t].facts
    ensures Scope(s'.workers[t].seal, s'.workers[t].pods) == s.store.scope
  {
    t, s' := Begins(reached, s, ReleaseQuota);
    s' := Rescopes(reached, s', t);
    s' := Does(reached, s', t, LoadContext, ContextMatched);
  }

  /** What looking for a report in vain teaches. */
  lemma MissedReport(cfg: Config, store: Store, books: map<string, Reservation>, w: Worker)
    requires store.report == None && !w.done && w.phase == Running && w.step == ReleaseQuota && ContextMatched in w.facts
    ensures var r := Good(cfg.id.operation);
            && Legal(cfg, w, LoadReport) && Fits(true, store, books, LoadReport, r) && StoreEffect(store, LoadReport) == store
            && Teaches(cfg, LoadReport, r, NoReport) && w.facts <= Learned(cfg, w, LoadReport, r).facts
            && Learned(cfg, w, LoadReport, r).(facts := w.facts, report := w.report) == w
  {
  }

  /** No report is found. */
  lemma FindsNoReport(reached: State -> bool, s: State, t: Token) returns (s': State)
    requires Closed(reached) && reached(s) && Works(s, t) && s.workers[t].step == ReleaseQuota && ContextMatched in s.workers[t].facts
    requires s.store.report == None
    ensures reached(s') && Works(s', t) && s'.cfg == s.cfg && s'.store == s.store
    ensures s'.workers[t].step == ReleaseQuota && {ContextMatched, NoReport} <= s'.workers[t].facts
    ensures s'.workers[t].seal == s.workers[t].seal && s'.workers[t].pods == s.workers[t].pods
  {
    MissedReport(s.cfg, s.store, s.authority, s.workers[t]);
    s' := Says(reached, s, t, LoadReport, Good(s.cfg.id.operation));
  }

  /** Nobody has saved a report, and the worker has all that one takes. */
  ghost predicate CanSave(s: State, t: Token) {
    && Works(s, t) && s.workers[t].step == ReleaseQuota && {ContextMatched, NoReport} <= s.workers[t].facts
    && Scope(s.workers[t].seal, s.workers[t].pods) == s.store.scope && !Blank(s.store.scope.seal) && s.store.report == None
    && s.cfg.reportStore && ManagedDelete(s.cfg)
  }

  /** What saving a first report teaches and stores. */
  lemma SavedReport(cfg: Config, store: Store, books: map<string, Reservation>, w: Worker, report: Report)
    requires store.report == None
    ensures var p, r := SaveReport(report), Good(cfg.id.operation);
            && Fits(true, store, books, p, r) && StoreEffect(store, p) == store.(report := Some(report)) && Teaches(cfg, p, r, ReportDurable)
            && Learned(cfg, w, p, r).(facts := w.facts) == w && w.facts <= Learned(cfg, w, p, r).facts
  {
  }

  lemma StoresReport(reached: State -> bool, s: State, t: Token) returns (s': State)
    requires Closed(reached) && reached(s) && CanSave(s, t)
    ensures reached(s') && Works(s', t) && s'.cfg == s.cfg && s'.workers[t].step == ReleaseQuota && s'.workers[t].seal == s.store.scope.seal
    ensures {ContextMatched, ReportDurable} <= s'.workers[t].facts && s'.store == s.store.(report := Some(Reporting(s.cfg, s.store.scope)))
    ensures s'.log != [] && s'.log[|s'.log| - 1].port == SaveReport(Reporting(s.cfg, s.store.scope))
  {
    var report := Reporting(s.cfg, s.store.scope);
    MaySaveReport(s.cfg, s.workers[t], s.store.scope);
    SavedReport(s.cfg, s.store, s.authority, s.workers[t], report);
    s' := Says(reached, s, t, SaveReport(report), Good(s.cfg.id.operation));
  }

  lemma SavesReport(reached: State -> bool, s: State) returns (t: Token, s': State)
    requires Closed(reached) && reached(s) && Waits(s, ReleaseQuota) && !Blank(s.store.scope.seal) && s.store.report == None
    requires s.cfg.reportStore && s.cfg.scopeStore && ManagedDelete(s.cfg) && s.cfg.id.operation != ""
    ensures reached(s') && Works(s', t) && s'.cfg == s.cfg && s'.workers[t].step == ReleaseQuota && s'.workers[t].seal == s.store.scope.seal
    ensures {ContextMatched, ReportDurable} <= s'.workers[t].facts && s'.store == s.store.(report := Some(Reporting(s.cfg, s.store.scope)))
    ensures s'.log != [] && s'.log[|s'.log| - 1].port == SaveReport(Reporting(s.cfg, s.store.scope))
  {
    var a;
    t, a := MatchesContext(reached, s);
    a := FindsNoReport(reached, a, t);
    s' := StoresReport(reached, a, t);
  }

  /** An unsealed delete seals its scope at the absence step. */
  lemma SealsItself(reached: State -> bool, s: State, seal: string) returns (s': State)
    requires Closed(reached) && reached(s) && ReportsRelease(s) && s.store.scope.seal == "" && seal != ""
    ensures reached(s') && s'.cfg == s.cfg && Waits(s', ReleaseQuota)
    ensures s'.store == s.store.(scope := Scope(seal, s.store.scope.pods))
  {
    DeletePath();
    var t, a;
    a := Vacated(reached, s);
    t, a := AtAbsence(reached, a);
    a := Seals(reached, a, t, seal);
    a := Rescopes(reached, a, t);
    a := Advances(reached, a, t, 2);
    s' := RemovesCr(reached, a);
  }

  /** A worker that saved the report sends it. */
  lemma SendsReport(reached: State -> bool, s: State, t: Token) returns (s': State)
    requires Closed(reached) && reached(s) && Works(s, t) && s.workers[t].step == ReleaseQuota && ManagedDelete(s.cfg)
    requires {ContextMatched, ReportDurable} <= s.workers[t].facts && !Blank(s.workers[t].seal)
    ensures reached(s') && Works(s', t) && s'.cfg == s.cfg && s'.store == s.store && s'.workers[t].step == ReleaseQuota
    ensures Leave(s.cfg, ReleaseQuota) <= s'.workers[t].facts
  {
    s' := Says(reached, s, t, SendReport(Canonical(s.cfg)), Good(s.cfg.id.operation));
    assert Teaches(s.cfg, SendReport(Canonical(s.cfg)), Good(s.cfg.id.operation), ReportSent);
  }

  lemma ReportsAndFinishes(reached: State -> bool, s: State) returns (s': State)
    requires Closed(reached) && reached(s) && Waits(s, ReleaseQuota) && !Blank(s.store.scope.seal) && s.store.report == None
    requires s.cfg.reportStore && s.cfg.scopeStore && ManagedDelete(s.cfg) && s.cfg.id.operation != "" && s.cfg.path == Path(Delete)
    ensures reached(s') && s'.op.phase == Succeeded && s'.store.report == Some(Reporting(s.cfg, s.store.scope))
  {
    var t, a := SavesReport(reached, s);
    a := SendsReport(reached, a, t);
    PathsAreGood(Delete);
    s' := Finishes(reached, a, t);
  }

  /** A managed delete that was not sealed before can succeed, with any seal that is not blank and a report that carries it. */
  lemma UnsealedDeleteSucceeds(s: State, seal: string) returns (s': State)
    requires ReportsRelease(s) && s.store.scope.seal == "" && !Blank(seal)
    ensures Reaches(s, s') && s'.op.phase == Succeeded
    ensures s'.store.report == Some(Reporting(s.cfg, Scope(seal, s.store.scope.pods)))
  {
    ReachedIsClosed(s);
    var a := SealsItself(x => Reaches(s, x), s, seal);
    s' := ReportsAndFinishes(x => Reaches(s, x), a);
  }

  /** On every run, every report saved carries a seal that was chosen in this operation after absence was observed in it. */
  ghost predicate ProvesOwnAbsence(s: State) {
    forall s', k: nat :: Reaches(s, s') && k < |s'.log| && s'.log[k].port.SaveReport? ==> FreshlySealed(s'.log, k)
  }

  lemma NoReportIfBlank(s: State, moves: seq<Move>, k: nat)
    requires Init(s) && k < |Run(s, moves).log| && s.store.scope.seal != "" && Blank(s.store.scope.seal)
    ensures !Run(s, moves).log[k].port.SaveReport?
  {
    RunTraces(s, moves);
    assert ReportTraced(Run(s, moves).log, s.store.scope.seal, k);
  }

  /**
   Every report of a managed delete proves an absence that this delete observed if and only if the scope
   was not already sealed when the delete was accepted.
   */
  lemma ReportProvesOwnAbsence(s: State)
    requires ReportsRelease(s)
    ensures ProvesOwnAbsence(s) <==> Blank(s.store.scope.seal)
  {
    if Blank(s.store.scope.seal) {
      forall s', k: nat | Reaches(s, s') && k < |s'.log| && s'.log[k].port.SaveReport? ensures FreshlySealed(s'.log, k) {
        var moves :| Run(s, moves) == s';
        if s.store.scope.seal == "" {
          ReportSeal(s, moves, k);
        } else {
          NoReportIfBlank(s, moves, k);
        }
      }
    } else {
      ReachedIsClosed(s);
      var s' := CanReport(x => Reaches(s, x), s);
      var moves :| Run(s, moves) == s';
      ReportSeal(s, moves, |s'.log| - 1);
    }
  }

  /** A freshly accepted, current stop of a managed service. */
  ghost predicate StopsManaged(s: State) {
    Init(s) && s.lease.current && s.cfg.kind == Stop && s.cfg.path == Path(Stop) && Sealable(s.cfg) && s.store.scope.seal == ""
  }

  lemma StopPath()
    ensures var path := Path(Stop);
            Vacates(path) && |path| == 5 && path[3] == ReleaseQuota
  {
  }

  lemma ReachesStopRelease(reached: State -> bool, s: State, seal: string) returns (s': State)
    requires Closed(reached) && reached(s) && StopsManaged(s) && seal != ""
    ensures reached(s') && Waits(s', ReleaseQuota) && s'.cfg == s.cfg && s'.store.scope.seal == seal
  {
    StopPath();
    var t, a;
    a := Vacated(reached, s);
    t, a := AtAbsence(reached, a);
    a := Seals(reached, a, t, seal);
    a := Rescopes(reached, a, t);
    s' := Advances(reached, a, t, 2);
  }

  /** A managed stop has nothing to give up at its last step. */
  lemma NothingToGiveUp(reached: State -> bool, s: State) returns (s': State)
    requires Closed(reached) && reached(s) && Waits(s, ReleaseQuota) && s.cfg.kind == Stop && s.cfg.managedGpu
    requires GoodPath(s.cfg.path) && s.cfg.path[|s.cfg.path| - 2] == ReleaseQuota
    ensures reached(s') && s'.op.phase == Succeeded && s'.store == s.store
  {
    var t, a := Begins(reached, s, ReleaseQuota);
    s' := Finishes(reached, a, t);
  }

  /** A managed stop can succeed with any seal. */
  lemma StopCanSeal(reached: State -> bool, s: State, seal: string) returns (s': State)
    requires Closed(reached) && reached(s) && StopsManaged(s) && seal != ""
    ensures reached(s') && s'.op.phase == Succeeded && s'.store.scope.seal == seal
  {
    StopPath();
    var a := ReachesStopRelease(reached, s, seal);
    s' := NothingToGiveUp(reached, a);
  }

  /** After such a stop, a delete that finds its scope has a run on which its report does not prove its own absence. */
  lemma StopThenDelete(stop: State, delete: State, seal: string) returns (stopped: State)
    requires StopsManaged(stop) && ReportsRelease(delete) && !Blank(seal)
    ensures Reaches(stop, stopped) && stopped.op.phase == Succeeded && stopped.store.scope.seal == seal
    ensures delete.store.scope == stopped.store.scope ==> !ProvesOwnAbsence(delete)
  {
    ReachedIsClosed(stop);
    stopped := StopCanSeal(x => Reaches(stop, x), stop, seal);
    if delete.store.scope == stopped.store.scope {
      ReportProvesOwnAbsence(delete);
    }
  }

  // ---- Whether the seal is fixed ----

  /** A freshly accepted, current operation that vacates a runtime whose absence is sealed. */
  ghost predicate SealsAbsence(s: State) {
    Init(s) && s.lease.current && Vacates(s.cfg.path) && Sealable(s.cfg)
  }

  /** On every run the stored seal, once set, stays. */
  ghost predicate SealIsFixed(s: State) {
    forall s', s'' :: Reaches(s, s') && Reaches(s', s'') && s'.store.scope.seal != "" ==> s''.store.scope.seal == s'.store.scope.seal
  }

  /** A worker that saw absence and was shown no seal saves one after it lost the lease: the scope write is not fenced. */
  lemma SealsLate(s: State, t: Token, seal: string)
    requires t in s.workers && !s.workers[t].done && s.workers[t].phase == Running && s.workers[t].step == ObserveAbsence && s.workers[t].seen == []
    requires {Looked, AbsenceObserved, AbsenceSaved} <= s.workers[t].facts && s.workers[t].seal == "" && Sealable(s.cfg) && seal != ""
    ensures Step(s, Call(t, SaveScope(seal, []), Good(s.cfg.id.operation))).store.scope.seal == seal
  {
    MayReseal(s.cfg, s.workers[t], seal);
    SavingSeals(s.store, seal);
  }

  /** Two workers, one after the other, see absence at an unsealed scope; the second seals it. */
  lemma BothSee(reached: State -> bool, s: State, seal: string) returns (early: Token, s': State)
    requires Closed(reached) && reached(s) && Waits(s, ObserveAbsence) && Sealable(s.cfg) && s.store.scope.seal == "" && seal != ""
    ensures reached(s') && s'.cfg == s.cfg && s'.store.scope.seal == seal && early in s'.workers && !s'.workers[early].done
    ensures s'.workers[early].phase == Running && s'.workers[early].step == ObserveAbsence && s'.workers[early].seen == []
    ensures s'.workers[early].seal == "" && {Looked, AbsenceObserved, AbsenceSaved} <= s'.workers[early].facts && !Held(s', early)
  {
    var a;
    early, a := AtAbsence(reached, s);
    var late, b := AtAbsence(reached, a);
    s' := Seals(reached, b, late, seal);
  }

  lemma SealedTwice(reached: State -> bool, s: State, seal: string, other: string) returns (s': State, m: Move)
    requires Closed(reached) && reached(s) && GoodPath(s.cfg.path) && Vacates(s.cfg.path) && Waits(s, WithdrawPublication)
    requires Sealable(s.cfg) && s.store.scope.seal == "" && seal != "" && other != ""
    ensures reached(s') && s'.store.scope.seal == seal && Step(s', m).store.scope.seal == other && StaleSeal(s', m)
  {
    s' := Vacated(reached, s);
    var early;
    early, s' := BothSee(reached, s', seal);
    m := Call(early, SaveScope(other, []), Good(s'.cfg.id.operation));
    SealsLate(s', early, other);
  }

  /** For every two different seals there is a run on which the second replaces the first. */
  lemma SealIsReplaced(s: State, seal: string, other: string) returns (s': State, m: Move)
    requires SealsAbsence(s) && s.store.scope.seal == "" && seal != "" && other != "" && seal != other
    ensures Reaches(s, s') && s'.store.scope.seal == seal && Step(s', m).store.scope.seal == other && StaleSeal(s', m)
    ensures !SealIsFixed(s)
  {
    ReachedIsClosed(s);
    s', m := SealedTwice(x => Reaches(s, x), s, seal, other);
    ReachedIsClosed(s');
    ReachesNext(s', s', m);
  }

  lemma {:induction false} ReachesRun(s: State, s': State, moves: seq<Move>)
    requires Reaches(s, s')
    ensures Reaches(s, Run(s', moves))
  {
    if moves != [] {
      ReachesRun(s, s', moves[..|moves| - 1]);
      ReachesNext(s, Run(s', moves[..|moves| - 1]), moves[|moves| - 1]);
    }
  }

  lemma OldSealIsFixed(s: State)
    requires Init(s) && s.store.scope.seal != ""
    ensures SealIsFixed(s)
  {
    forall s', s'' | Reaches(s, s') && Reaches(s', s'') && s'.store.scope.seal != "" ensures s''.store.scope.seal == s'.store.scope.seal {
      var moves :| Run(s', moves) == s'';
      ReachesRun(s, s', moves);
      var first :| Run(s, first) == s';
      var all :| Run(s, all) == s'';
      OldSealStays(s, first);
      OldSealStays(s, all);
    }
  }

  /**
   The stored seal is fixed on every run if and only if the scope was sealed from the beginning: otherwise
   a worker that observed absence, and lost its lease to one that sealed, can still replace the seal.
   */
  lemma SealFixedExactly(s: State)
    requires SealsAbsence(s)
    ensures SealIsFixed(s) <==> s.store.scope.seal != ""
  {
    if s.store.scope.seal == "" {
      var s', m := SealIsReplaced(s, "seal", "other");
    } else {
      OldSealIsFixed(s);
    }
  }
}
