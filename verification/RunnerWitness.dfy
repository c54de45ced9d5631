/**
 Runs that the protocol does have: from an operation row that nobody else works on, a worker takes a fresh
 lease, loads, makes its calls with good replies and advances. Used to show that a condition of a safety
 theorem is needed.
 */
module RunnerWitness {
  import opened OperationSteps
  import opened RunnerProtocol

  /** Some moves lead from one state to the other. */
  ghost predicate Reaches(s: State, s': State) {
    exists moves :: Run(s, moves) == s'
  }

  /** Whatever a set of states holds, it holds where one more move leads; so it holds what a member reaches. */
  ghost predicate Closed(reached: State -> bool) {
    forall s: State, m: Move {:trigger reached(Step(s, m))} :: reached(s) ==> reached(Step(s, m))
  }

  lemma ReachesNext(s: State, s': State, m: Move)
    requires Reaches(s, s')
    ensures Reaches(s, Step(s', m))
  {
    var moves :| Run(s, moves) == s';
    assert (moves + [m])[..|moves|] == moves;
    assert Run(s, moves + [m]) == Step(s', m);
  }

  lemma ReachedIsClosed(s: State)
    ensures Closed(s' => Reaches(s, s')) && Reaches(s, s)
  {
    assert Run(s, []) == s;
    forall s': State, m: Move | Reaches(s, s') ensures Reaches(s, Step(s', m)) {
      ReachesNext(s, s', m);
    }
  }

  lemma FreshToken(used: set<Token>) returns (t: Token)
    ensures t !in used
    ensures forall u :: u in used ==> u < t
    decreases |used|
  {
    if used == {} {
      t := 0;
    } else {
      var x :| x in used;
      var y := FreshToken(used - {x});
      t := if y > x then y else x + 1;
      forall u | u in used ensures u < t {
        assert u == x || u in used - {x};
      }
    }
  }

  /** The current operation waits at a step for its next worker. */
  ghost predicate Waits(s: State, step: StepName) {
    s.lease.current && s.workers.Keys <= s.lease.used && s.op.step == step && ActivePhase(s.op.phase)
  }

  /** A worker holds the lease and works at the operation's step. */
  ghost predicate Works(s: State, t: Token) {
    && Held(s, t) && s.workers.Keys <= s.lease.used && t in s.workers && t in s.lease.used && !s.workers[t].done
    && s.workers[t].phase == Running && s.op == OpState(Running, s.workers[t].step)
  }

  /** What a load hands to a worker. */
  ghost predicate JustLoaded(s: State, w: Worker) {
    && w.record == Shown(s.cfg, s.store.rows) && w.current == w.record && w.previous == ShownPrevious(s.cfg, s.store.rows)
    && w.seal == s.store.scope.seal && w.pods == s.store.scope.pods && w.seen == [] && Looked !in w.facts && QuotaLooked !in w.facts
    && (w.record.id == "" ==> CurrentCleared in w.facts) && (w.previous.id == "" ==> PreviousCleared in w.facts)
  }

  lemma Loaded(s: State, t: Token)
    requires Held(s, t) && t !in s.workers && ActivePhase(s.op.phase)
    ensures var s' := DoLoad(s, t);
            && s'.cfg == s.cfg && s'.op == s.op && s'.lease == s.lease && s'.store == s.store && s'.authority == s.authority
            && s'.workers.Keys == s.workers.Keys + {t} && JustLoaded(s, s'.workers[t]) && s'.log == s.log + [LoadEntry(s, t)]
            && s'.workers[t].phase == s.op.phase && s'.workers[t].step == s.op.step && !s'.workers[t].done
            && forall u :: u in s.workers ==> s'.workers[u] == s.workers[u]
  {
  }

  /** What one worker's moves leave alone: the configuration, and the other workers. */
  ghost predicate Beside(s: State, s': State, t: Token) {
    s'.cfg == s.cfg && t in s'.workers && s'.workers == s.workers[t := s'.workers[t]]
  }

  /** A fresh worker takes the lease, loads and claims. */
  lemma Begins(reached: State -> bool, s: State, step: StepName) returns (t: Token, s': State)
    requires Closed(reached) && reached(s) && Waits(s, step)
    ensures reached(s') && t !in s.workers && Works(s', t) && Beside(s, s', t) && JustLoaded(s, s'.workers[t]) && s'.workers[t].step == step
    ensures s'.store == s.store && s'.authority == s.authority
  {
    t := FreshToken(s.lease.used);
    var granted := Step(s, Grant(t));
    assert reached(Step(s, Grant(t)));
    s' := Step(granted, Load(t));
    assert reached(Step(granted, Load(t)));
    Loaded(granted, t);
    if s.op.phase.Pending? {
      assert reached(Step(s', Claim(t)));
      s' := Step(s', Claim(t));
    }
  }

  /** A legal call that succeeds. */
  lemma Says(reached: State -> bool, s: State, t: Token, p: Port, r: Reply) returns (s': State)
    requires Closed(reached) && reached(s) && Works(s, t) && Legal(s.cfg, s.workers[t], p) && Fits(true, s.store, s.authority, p, r) && !r.failed
    ensures reached(s') && Works(s', t) && Beside(s, s', t) && s'.workers[t] == Learned(s.cfg, s.workers[t], p, r)
    ensures s'.store == StoreEffect(s.store, p) && s'.authority == AuthorityEffect(s.authority, p, r)
    ensures s'.log == s.log + [Entry(t, s.workers[t].step, p, r, Gain(s.cfg, p, r), true)]
    ensures forall f :: Teaches(s.cfg, p, r, f) ==> f in s'.workers[t].facts
  {
    assert reached(Step(s, Call(t, p, r)));
    s' := Step(s, Call(t, p, r));
  }

  /** The same records, waiting at another step. */
  ghost predicate CameTo(s: State, s': State, step: StepName) {
    s'.cfg == s.cfg && s'.store == s.store && s'.authority == s.authority && Waits(s', step)
  }

  lemma NextOnPath(path: seq<StepName>, i: nat)
    requires GoodPath(path) && i + 2 < |path|
    ensures AcceptsOn(path, Running, path[i], Running, path[i + 1])
  {
    IndexOf(path, i);
    IndexOf(path, i + 1);
  }

  /** The worker advances the operation to the next step of its path, ... */
  lemma Advances(reached: State -> bool, s: State, t: Token, i: nat) returns (s': State)
    requires Closed(reached) && reached(s) && Works(s, t) && Leave(s.cfg, s.workers[t].step) <= s.workers[t].facts
    requires GoodPath(s.cfg.path) && i + 2 < |s.cfg.path| && s.workers[t].step == s.cfg.path[i]
    ensures reached(s') && CameTo(s, s', s.cfg.path[i + 1])
  {
    var next := s.cfg.path[i + 1];
    NextOnPath(s.cfg.path, i);
    assert reached(Step(s, Advance(t, Running, next)));
    s' := Step(s, Advance(t, Running, next));
  }

  /** ... or finishes it. */
  lemma Finishes(reached: State -> bool, s: State, t: Token) returns (s': State)
    requires Closed(reached) && reached(s) && Works(s, t) && Leave(s.cfg, s.workers[t].step) <= s.workers[t].facts
    requires GoodPath(s.cfg.path) && s.workers[t].step == s.cfg.path[|s.cfg.path| - 2]
    ensures reached(s') && s'.op.phase == Succeeded && s'.store == s.store && s'.authority == s.authority
  {
    IndexOf(s.cfg.path, |s.cfg.path| - 2);
    assert reached(Step(s, Advance(t, Succeeded, Complete)));
    s' := Step(s, Advance(t, Succeeded, Complete));
  }

  /** The good reply: everything succeeds, is ready or absent as asked, and no Pods are seen. */
  function Good(text: string): Reply {
    NoReply().(failed := false, yes := true, observation := Observation(true, true, true, true, []), text := text)
  }

  /** Calls that touch neither the persisted records nor the authority. */
  predicate Plain(p: Port) {
    || p.SaveWithdrawing? || p.Withdraw? || p.ConfirmWithdrawn? || p.SaveWithdrawn? || p.RequestDelete?
    || p.LookAbsent? || p.SaveAbsent? || p.RemoveCr? || p.CleanupModel? || p.LoadContext?
  }

  lemma PlainTouchesNothing(store: Store, books: map<string, Reservation>, p: Port, r: Reply)
    requires Plain(p)
    ensures StoreEffect(store, p) == store && AuthorityEffect(books, p, r) == books && Fits(true, store, books, p, r)
  {
  }

  /** The worker has what a plain call takes. */
  predicate MayDo(cfg: Config, w: Worker, p: Port) {
    Plain(p) && AtStep(p, w.step) && Prior(cfg, w.step, p) <= w.facts && (p.LookAbsent? ==> Looked !in w.facts)
  }

  /** The worker went on with its work and may have learned more. */
  ghost predicate WentOn(w: Worker, w': Worker) {
    && w'.step == w.step && w'.record == w.record && w'.current == w.current && w'.seal == w.seal && w'.pods == w.pods
    && w.facts <= w'.facts
  }

  lemma PlainIsLegal(cfg: Config, w: Worker, p: Port)
    requires MayDo(cfg, w, p) && !w.done && w.phase == Running
    ensures Legal(cfg, w, p)
  {
  }

  lemma PlainTeaches(cfg: Config, w: Worker, p: Port, f: Fact)
    requires Plain(p) && w.seen == [] && (Teaches(cfg, p, Good(cfg.id.operation), f) || f in w.facts)
    ensures var w' := Learned(cfg, w, p, Good(cfg.id.operation));
            WentOn(w, w') && f in w'.facts && w'.seen == []
  {
  }

  /** A plain call with the good reply, and a fact known then. */
  lemma Does(reached: State -> bool, s: State, t: Token, p: Port, f: Fact) returns (s': State)
    requires Closed(reached) && reached(s) && Works(s, t) && MayDo(s.cfg, s.workers[t], p) && s.workers[t].seen == []
    requires Teaches(s.cfg, p, Good(s.cfg.id.operation), f) || f in s.workers[t].facts
    ensures reached(s') && Works(s', t) && Beside(s, s', t) && s'.store == s.store && s'.authority == s.authority
    ensures WentOn(s.workers[t], s'.workers[t]) && f in s'.workers[t].facts && s'.workers[t].seen == []
  {
    PlainIsLegal(s.cfg, s.workers[t], p);
    PlainTeaches(s.cfg, s.workers[t], p, f);
    PlainTouchesNothing(s.store, s.authority, p, Good(s.cfg.id.operation));
    s' := Says(reached, s, t, p, Good(s.cfg.id.operation));
  }

  // ---- The steps that vacate a runtime ----

  /** The path begins by withdrawing, deleting and observing absence. */
  predicate Vacates(path: seq<StepName>) {
    |path| >= 4 && path[0] == WithdrawPublication && path[1] == DeleteRuntime && path[2] == ObserveAbsence
  }

  lemma AsksToWithdraw(reached: State -> bool, s: State, t: Token) returns (s': State)
    requires Closed(reached) && reached(s) && Works(s, t) && s.workers[t].step == WithdrawPublication && s.workers[t].seen == []
    ensures reached(s') && Works(s', t) && s'.cfg == s.cfg && s'.store == s.store && s'.authority == s.authority
    ensures s'.workers[t].step == WithdrawPublication && s'.workers[t].seen == [] && {WithdrawIntent, WithdrawRequested} <= s'.workers[t].facts
  {
    s' := Does(reached, s, t, SaveWithdrawing, WithdrawIntent);
    s' := Does(reached, s', t, Withdraw, WithdrawRequested);
  }

  lemma SeesWithdrawn(reached: State -> bool, s: State, t: Token) returns (s': State)
    requires Closed(reached) && reached(s) && Works(s, t) && s.workers[t].step == WithdrawPublication && s.workers[t].seen == []
    requires {WithdrawIntent, WithdrawRequested} <= s.workers[t].facts
    ensures reached(s') && Works(s', t) && s'.cfg == s.cfg && s'.store == s.store && s'.authority == s.authority
    ensures s'.workers[t].step == WithdrawPublication && {WithdrawConfirmed, WithdrawSaved} <= s'.workers[t].facts
  {
    s' := Does(reached, s, t, ConfirmWithdrawn, WithdrawConfirmed);
    s' := Does(reached, s', t, SaveWithdrawn, WithdrawSaved);
  }

  lemma Withdraws(reached: State -> bool, s: State) returns (s': State)
    requires Closed(reached) && reached(s) && Waits(s, WithdrawPublication) && GoodPath(s.cfg.path) && Vacates(s.cfg.path)
    ensures reached(s') && CameTo(s, s', DeleteRuntime)
  {
    var t, a := Begins(reached, s, WithdrawPublication);
    a := AsksToWithdraw(reached, a, t);
    a := SeesWithdrawn(reached, a, t);
    s' := Advances(reached, a, t, 0);
  }

  lemma Deletes(reached: State -> bool, s: State) returns (s': State)
    requires Closed(reached) && reached(s) && Waits(s, DeleteRuntime) && GoodPath(s.cfg.path) && Vacates(s.cfg.path)
    ensures reached(s') && CameTo(s, s', ObserveAbsence)
  {
    var t, a := Begins(reached, s, DeleteRuntime);
    a := Does(reached, a, t, RequestDelete, DeleteAccepted);
    s' := Advances(reached, a, t, 1);
  }

  /** From a fresh operation to the absence step. */
  lemma Vacated(reached: State -> bool, s: State) returns (s': State)
    requires Closed(reached) && reached(s) && Waits(s, WithdrawPublication) && GoodPath(s.cfg.path) && Vacates(s.cfg.path)
    ensures reached(s') && CameTo(s, s', ObserveAbsence)
  {
    s' := Withdraws(reached, s);
    s' := Deletes(reached, s');
  }

  /** A worker observes and saves absence. */
  ghost predicate SawIt(s: State, t: Token) {
    && Works(s, t) && s.workers[t].step == ObserveAbsence && s.workers[t].seen == []
    && {Looked, AbsenceObserved, AbsenceSaved, PodsKept} <= s.workers[t].facts
  }

  lemma LookTeaches(cfg: Config, w: Worker)
    requires w.step == ObserveAbsence && w.seen == []
    ensures var w' := Learned(cfg, w, LookAbsent, Good(cfg.id.operation));
            {Looked, AbsenceObserved, PodsKept} <= w'.facts && w'.seen == [] && WentOn(w, w')
  {
    assert Teaches(cfg, LookAbsent, Good(cfg.id.operation), Looked);
    assert Teaches(cfg, LookAbsent, Good(cfg.id.operation), AbsenceObserved);
    assert Teaches(cfg, LookAbsent, Good(cfg.id.operation), PodsKept);
  }

  lemma SeesAbsent(reached: State -> bool, s: State, t: Token) returns (s': State)
    requires Closed(reached) && reached(s) && Works(s, t) && s.workers[t].step == ObserveAbsence
    requires s.workers[t].seen == [] && Looked !in s.workers[t].facts
    ensures reached(s') && SawIt(s', t) && Beside(s, s', t) && s'.store == s.store && s'.authority == s.authority
    ensures WentOn(s.workers[t], s'.workers[t])
  {
    LookTeaches(s.cfg, s.workers[t]);
    PlainTouchesNothing(s.store, s.authority, LookAbsent, Good(s.cfg.id.operation));
    s' := Says(reached, s, t, LookAbsent, Good(s.cfg.id.operation));
    s' := Does(reached, s', t, SaveAbsent, AbsenceSaved);
  }

  lemma AtAbsence(reached: State -> bool, s: State) returns (t: Token, s': State)
    requires Closed(reached) && reached(s) && Waits(s, ObserveAbsence)
    ensures reached(s') && t !in s.workers && SawIt(s', t) && Beside(s, s', t) && s'.store == s.store && s'.authority == s.authority
    ensures s'.workers[t].seal == s.store.scope.seal
  {
    t, s' := Begins(reached, s, ObserveAbsence);
    s' := SeesAbsent(reached, s', t);
  }

  /** Without a scope to seal, the operation moves past the absence step. */
  lemma PassesAbsence(reached: State -> bool, s: State) returns (s': State)
    requires Closed(reached) && reached(s) && Waits(s, ObserveAbsence) && GoodPath(s.cfg.path) && Vacates(s.cfg.path) && |s.cfg.path| > 4
    requires !(s.cfg.managedGpu && s.cfg.scopeStore)
    ensures reached(s') && CameTo(s, s', s.cfg.path[3])
  {
    var t, a := AtAbsence(reached, s);
    s' := Advances(reached, a, t, 2);
  }

  lemma RemovesBoth(reached: State -> bool, s: State, t: Token) returns (s': State)
    requires Closed(reached) && reached(s) && Works(s, t) && s.workers[t].step == DeleteCr && s.workers[t].seen == []
    ensures reached(s') && Works(s', t) && s'.cfg == s.cfg && s'.store == s.store && s'.authority == s.authority
    ensures s'.workers[t].step == DeleteCr && {CrRemoved, ModelCleaned} <= s'.workers[t].facts
  {
    s' := Does(reached, s, t, RemoveCr, CrRemoved);
    s' := Does(reached, s', t, CleanupModel, ModelCleaned);
  }

  /** A delete removes the custom resource and the model. */
  lemma RemovesCr(reached: State -> bool, s: State) returns (s': State)
    requires Closed(reached) && reached(s) && Waits(s, DeleteCr) && s.cfg.path == Path(Delete)
    ensures reached(s') && CameTo(s, s', ReleaseQuota)
  {
    var t, a := Begins(reached, s, DeleteCr);
    a := RemovesBoth(reached, a, t);
    PathsAreGood(Delete);
    s' := Advances(reached, a, t, 3);
  }
}
