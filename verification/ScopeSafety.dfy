/** The recorded Pods of a managed GPU over every run: what a worker saw is recorded before the operation moves on. */
module ScopeSafety {
  import opened OperationSteps
  import opened ReleaseProof
  import opened RunnerProtocol
  import opened RunnerSafety
  import opened ReleaseSafety

  ghost predicate Within(pods: seq<PodRef>, all: seq<PodRef>) {
    forall p :: p in pods ==> p in all
  }

  /** What the worker says it keeps is in the store, and it keeps nothing before it has looked. */
  ghost predicate KeepsPods(w: Worker, stored: seq<PodRef>) {
    PodsKept in w.facts ==> Looked in w.facts && Within(w.seen, stored)
  }

  /** The worker's observation is the one in the log. */
  ghost predicate SawLogged(w: Worker, log: seq<Entry>, t: Token) {
    Looked in w.facts ==> exists i :: 0 <= i < |log| && IsLook(log[i], t) && log[i].reply.observation.pods == w.seen
  }

  ghost predicate Scoped(s: State) {
    forall t :: t in s.workers ==> KeepsPods(s.workers[t], s.store.scope.pods) && SawLogged(s.workers[t], s.log, t)
  }

  lemma CallKeepsPods(cfg: Config, held: bool, store: Store, books: map<string, Reservation>, w: Worker, p: Port, r: Reply)
    requires Legal(cfg, w, p) && Fits(held, store, books, p, r) && KeepsPods(w, store.scope.pods)
    ensures var store' := if !r.failed || r.applied then StoreEffect(store, p) else store;
            KeepsPods(Learned(cfg, w, p, r), store'.scope.pods) && store.scope.pods <= store'.scope.pods
  {
    TaughtOfPods(cfg, p, r);
  }

  lemma TaughtOfPods(cfg: Config, p: Port, r: Reply)
    ensures PodsKept in Gain(cfg, p, r) ==> !r.failed && (p.SaveScope? || ((p.LookReady? || p.LookAbsent?) && r.observation.pods == []))
    ensures Looked in Gain(cfg, p, r) <==> (p.LookReady? || p.LookAbsent?) && !r.failed
  {
  }

  lemma LogKeepsSaw(w: Worker, log: seq<Entry>, e: Entry, t: Token)
    requires SawLogged(w, log, t)
    ensures SawLogged(w, log + [e], t)
  {
    if Looked in w.facts {
      var i :| 0 <= i < |log| && IsLook(log[i], t) && log[i].reply.observation.pods == w.seen;
      assert (log + [e])[i] == log[i];
    }
  }

  lemma CallKeepsSaw(cfg: Config, w: Worker, p: Port, r: Reply, log: seq<Entry>, e: Entry, t: Token)
    requires SawLogged(w, log, t) && e.token == t && e.port == p && e.reply == r
    ensures SawLogged(Learned(cfg, w, p, r), log + [e], t)
  {
    TaughtOfPods(cfg, p, r);
    assert (log + [e])[|log|] == e;
    if (p.LookReady? || p.LookAbsent?) && !r.failed {
      assert IsLook((log + [e])[|log|], t);
    } else {
      LogKeepsSaw(w, log, e, t);
    }
  }

  lemma CallKeepsScoped(s: State, t: Token, p: Port, r: Reply)
    requires Scoped(s) && MayCall(s, t, p, r)
    ensures Scoped(DoCall(s, t, p, r))
  {
    var s', w := DoCall(s, t, p, r), s.workers[t];
    var e := s'.log[|s.log|];
    CallKeepsPods(s.cfg, Held(s, t), s.store, s.authority, w, p, r);
    CallKeepsSaw(s.cfg, w, p, r, s.log, e, t);
    forall u | u in s'.workers && u != t
      ensures KeepsPods(s'.workers[u], s'.store.scope.pods) && SawLogged(s'.workers[u], s'.log, u)
    {
      LogKeepsSaw(s.workers[u], s.log, e, u);
    }
  }

  lemma LoadKeepsScoped(s: State, t: Token)
    requires Scoped(s) && Speaks(s, Load(t))
    ensures Scoped(DoLoad(s, t))
  {
    var s' := DoLoad(s, t);
    forall u | u in s'.workers && u != t ensures SawLogged(s'.workers[u], s'.log, u) {
      LogKeepsSaw(s.workers[u], s.log, LoadEntry(s, t), u);
    }
  }

  lemma StepKeepsScoped(s: State, m: Move)
    requires Scoped(s)
    ensures Scoped(Step(s, m))
  {
    if !Speaks(s, m) {
      OtherMovesAreQuiet(s, m);
    } else if m.Load? {
      LoadKeepsScoped(s, m.token);
    } else {
      CallKeepsScoped(s, m.token, m.port, m.reply);
    }
  }

  lemma {:induction false} RunKeepsScoped(s: State, moves: seq<Move>)
    requires Init(s)
    ensures Scoped(Run(s, moves))
  {
    if moves != [] {
      RunKeepsScoped(s, moves[..|moves| - 1]);
      StepKeepsScoped(Run(s, moves[..|moves| - 1]), moves[|moves| - 1]);
    }
  }

  lemma LeavesWithPods(cfg: Config, step: StepName)
    requires Sealable(cfg) && (step == ObserveRuntime || step == ObserveAbsence)
    ensures PodsKept in Leave(cfg, step)
  {
  }

  /**
   A worker may move a managed GPU operation past an observation only when every Pod that observation
   showed is recorded in the release scope, and there they stay.
   */
  lemma SeenIsRecordedFirst(s: State, moves: seq<Move>, t: Token) returns (look: nat)
    requires Init(s) && Sealable(s.cfg) && MayAdvance(Run(s, moves), t)
    requires Run(s, moves).workers[t].step in {ObserveRuntime, ObserveAbsence}
    ensures var now := Run(s, moves);
            look < |now.log| && IsLook(now.log[look], t) && Within(now.log[look].reply.observation.pods, now.store.scope.pods)
  {
    RunKeepsInv(s, moves);
    RunKeepsScoped(s, moves);
    var now := Run(s, moves);
    var w := now.workers[t];
    LeavesWithPods(now.cfg, w.step);
    look :| 0 <= look < |now.log| && IsLook(now.log[look], t) && now.log[look].reply.observation.pods == w.seen;
  }

  // ---- The Pods in the evidence ----

  /** The entry showed its worker the recorded Pods. */
  ghost predicate ShowsPods(e: Entry, t: Token) {
    e.token == t && !e.reply.failed && (e.port.LoadOperation? || e.port.LoadScope?)
  }

  /** These are Pods the worker was shown, and they begin with all it was ever shown. */
  ghost predicate WasShown(log: seq<Entry>, t: Token, pods: seq<PodRef>) {
    && (exists j :: 0 <= j < |log| && ShowsPods(log[j], t) && log[j].reply.pods == pods)
    && (forall j :: 0 <= j < |log| && ShowsPods(log[j], t) ==> log[j].reply.pods <= pods)
  }

  /** What a worker has at hand lies between the Pods recorded at the beginning and those recorded now. */
  ghost predicate AtHand(log: seq<Entry>, first: seq<PodRef>, stored: seq<PodRef>, t: Token, w: Worker) {
    first <= w.pods <= stored && WasShown(log, t, w.pods)
  }

  ghost predicate AllAtHand(s: State, first: seq<PodRef>) {
    forall t :: t in s.workers ==> AtHand(s.log, first, s.store.scope.pods, t, s.workers[t])
  }

  /** A saved report attests exactly the Pods its worker had at hand. */
  ghost predicate ReportCovers(log: seq<Entry>, first: seq<PodRef>, k: nat) {
    k < |log| && log[k].port.SaveReport? ==>
      exists pods :: multiset(log[k].port.report.evidence.payload.pods) == multiset(pods) && first <= pods && WasShown(log[..k], log[k].token, pods)
  }

  ghost predicate AllCover(log: seq<Entry>, first: seq<PodRef>) {
    forall k: nat {:trigger ReportCovers(log, first, k)} :: ReportCovers(log, first, k)
  }

  ghost predicate Covered(s: State, first: seq<PodRef>) {
    first <= s.store.scope.pods && AllAtHand(s, first) && AllCover(s.log, first)
  }

  lemma WasShownAppend(log: seq<Entry>, e: Entry, t: Token, pods: seq<PodRef>)
    requires WasShown(log, t, pods) && (ShowsPods(e, t) ==> e.reply.pods <= pods)
    ensures WasShown(log + [e], t, pods)
  {
    var j :| 0 <= j < |log| && ShowsPods(log[j], t) && log[j].reply.pods == pods;
    assert (log + [e])[j] == log[j];
  }

  /** A newer showing replaces what was at hand. */
  lemma ShownAgain(log: seq<Entry>, e: Entry, t: Token, before: seq<PodRef>)
    requires ShowsPods(e, t) && before <= e.reply.pods
    requires forall j :: 0 <= j < |log| && ShowsPods(log[j], t) ==> log[j].reply.pods <= before
    ensures WasShown(log + [e], t, e.reply.pods)
  {
    assert (log + [e])[|log|] == e;
  }

  lemma CoverAppend(log: seq<Entry>, e: Entry, first: seq<PodRef>, pods: seq<PodRef>)
    requires AllCover(log, first)
    requires e.port.SaveReport? ==> multiset(e.port.report.evidence.payload.pods) == multiset(pods) && first <= pods && WasShown(log, e.token, pods)
    ensures AllCover(log + [e], first)
  {
    forall k: nat ensures ReportCovers(log + [e], first, k) {
      assert ReportCovers(log, first, k);
      if k <= |log| {
        assert (log + [e])[..k] == log[..k];
        assert log[..|log|] == log;
      }
    }
  }

  lemma CallerKeepsAtHand(cfg: Config, held: bool, store: Store, books: map<string, Reservation>, log: seq<Entry>, first: seq<PodRef>, w: Worker, e: Entry)
    requires AtHand(log, first, store.scope.pods, e.token, w) && Fits(held, store, books, e.port, e.reply) && !e.port.LoadOperation?
    ensures AtHand(log + [e], first, store.scope.pods, e.token, Learned(cfg, w, e.port, e.reply))
  {
    if e.port.LoadScope? && !e.reply.failed {
      ShownAgain(log, e, e.token, w.pods);
    } else {
      WasShownAppend(log, e, e.token, w.pods);
    }
  }

  lemma OthersKeepAtHand(s: State, s': State, e: Entry, first: seq<PodRef>)
    requires AllAtHand(s, first) && s'.log == s.log + [e] && s.store.scope.pods <= s'.store.scope.pods
    requires e.token in s'.workers && s'.workers == s.workers[e.token := s'.workers[e.token]]
    requires AtHand(s'.log, first, s'.store.scope.pods, e.token, s'.workers[e.token])
    ensures AllAtHand(s', first)
  {
    forall u | u in s'.workers && u != e.token ensures AtHand(s'.log, first, s'.store.scope.pods, u, s'.workers[u]) {
      assert AtHand(s.log, first, s.store.scope.pods, u, s.workers[u]);
      WasShownAppend(s.log, e, u, s.workers[u].pods);
    }
  }

  lemma AtHandGrows(log: seq<Entry>, first: seq<PodRef>, stored: seq<PodRef>, more: seq<PodRef>, t: Token, w: Worker)
    requires AtHand(log, first, stored, t, w) && stored <= more
    ensures AtHand(log, first, more, t, w)
  {
  }

  /** What a call does to the log, the workers and the recorded Pods. */
  lemma CallShape(s: State, t: Token, p: Port, r: Reply, e: Entry)
    requires MayCall(s, t, p, r) && e == Entry(t, s.workers[t].step, p, r, Gain(s.cfg, p, r), Held(s, t))
    ensures var s' := DoCall(s, t, p, r);
            s'.log == s.log + [e] && s'.workers == s.workers[t := Learned(s.cfg, s.workers[t], p, r)] && s.store.scope.pods <= s'.store.scope.pods
  {
    PodsOnlyGrow(s, Call(t, p, r));
  }

  lemma CallKeepsAtHand(s: State, t: Token, p: Port, r: Reply, s': State, e: Entry, first: seq<PodRef>)
    requires AllAtHand(s, first) && t in s.workers && e.token == t && e.port == p && e.reply == r && !p.LoadOperation?
    requires Fits(Held(s, t), s.store, s.authority, p, r)
    requires s'.log == s.log + [e] && s'.workers == s.workers[t := Learned(s.cfg, s.workers[t], p, r)] && s.store.scope.pods <= s'.store.scope.pods
    ensures AllAtHand(s', first)
  {
    CallerKeepsAtHand(s.cfg, Held(s, t), s.store, s.authority, s.log, first, s.workers[t], e);
    AtHandGrows(s'.log, first, s.store.scope.pods, s'.store.scope.pods, t, s'.workers[t]);
    OthersKeepAtHand(s, s', e, first);
  }

  lemma SavedIsAttested(cfg: Config, w: Worker, p: Port)
    requires Argued(cfg, w, p) && p.SaveReport?
    ensures multiset(p.report.evidence.payload.pods) == multiset(w.pods)
  {
  }

  lemma CallKeepsCovered(s: State, t: Token, p: Port, r: Reply, first: seq<PodRef>)
    requires Covered(s, first) && MayCall(s, t, p, r)
    ensures Covered(DoCall(s, t, p, r), first)
  {
    var w := s.workers[t];
    var e := Entry(t, w.step, p, r, Gain(s.cfg, p, r), Held(s, t));
    CallShape(s, t, p, r, e);
    NoLoadPort(p, w.step);
    CallKeepsAtHand(s, t, p, r, DoCall(s, t, p, r), e, first);
    if p.SaveReport? {
      SavedIsAttested(s.cfg, w, p);
    }
    CoverAppend(s.log, e, first, w.pods);
  }

  lemma LoadKeepsCovered(s: State, t: Token, first: seq<PodRef>)
    requires Covered(s, first) && Speaks(s, Load(t)) && EntriesOf(s.log, s.workers)
    ensures Covered(DoLoad(s, t), first)
  {
    var e := LoadEntry(s, t);
    ShownAgain(s.log, e, t, []);
    OthersKeepAtHand(s, DoLoad(s, t), e, first);
    CoverAppend(s.log, e, first, []);
  }

  lemma QuietKeepsCovered(s: State, s': State, first: seq<PodRef>)
    requires Covered(s, first) && Quiet(s, s')
    ensures Covered(s', first)
  {
    forall t | t in s'.workers ensures AtHand(s'.log, first, s'.store.scope.pods, t, s'.workers[t]) {
      assert AtHand(s.log, first, s.store.scope.pods, t, s.workers[t]) && SameKnowledge(s.workers[t], s'.workers[t]);
    }
  }

  lemma StepKeepsCovered(s: State, m: Move, first: seq<PodRef>)
    requires Inv(s) && Covered(s, first)
    ensures Covered(Step(s, m), first)
  {
    if !Speaks(s, m) {
      OtherMovesAreQuiet(s, m);
      QuietKeepsCovered(s, Step(s, m), first);
    } else if m.Load? {
      LoadKeepsCovered(s, m.token, first);
    } else {
      CallKeepsCovered(s, m.token, m.port, m.reply, first);
    }
  }

  lemma {:induction false} RunKeepsCovered(s: State, moves: seq<Move>)
    requires Init(s)
    ensures Covered(Run(s, moves), s.store.scope.pods)
  {
    if moves != [] {
      RunKeepsCovered(s, moves[..|moves| - 1]);
      RunKeepsInv(s, moves[..|moves| - 1]);
      StepKeepsCovered(Run(s, moves[..|moves| - 1]), moves[|moves| - 1], s.store.scope.pods);
    }
  }

  lemma SamePods(a: seq<PodRef>, b: seq<PodRef>, p: PodRef)
    requires multiset(a) == multiset(b) && p in b
    ensures p in a
  {
    assert p in multiset(b);
  }

  /**
   The evidence of every saved report holds exactly the Pods that its worker was shown at one point; with
   them every Pod the worker was ever shown, and every Pod recorded when the operation was accepted.
   */
  lemma EvidenceHoldsShown(s: State, moves: seq<Move>, k: nat) returns (shown: nat)
    requires Init(s) && k < |Run(s, moves).log| && Run(s, moves).log[k].port.SaveReport?
    ensures var log := Run(s, moves).log;
            var attested := log[k].port.report.evidence.payload.pods;
            && shown < k && ShowsPods(log[shown], log[k].token) && multiset(attested) == multiset(log[shown].reply.pods)
            && (forall j :: 0 <= j < k && ShowsPods(log[j], log[k].token) ==> Within(log[j].reply.pods, attested))
            && Within(s.store.scope.pods, attested)
  {
    var log, first := Run(s, moves).log, s.store.scope.pods;
    RunKeepsCovered(s, moves);
    assert ReportCovers(log, first, k);
    var attested := log[k].port.report.evidence.payload.pods;
    var pods :| multiset(attested) == multiset(pods) && first <= pods && WasShown(log[..k], log[k].token, pods);
    shown :| 0 <= shown < k && ShowsPods(log[..k][shown], log[k].token) && log[..k][shown].reply.pods == pods;
    forall p | p in pods ensures p in attested {
      SamePods(attested, pods, p);
    }
    forall j | 0 <= j < k && ShowsPods(log[j], log[k].token) ensures Within(log[j].reply.pods, attested) {
      assert log[..k][j].reply.pods <= pods;
    }
  }
}
