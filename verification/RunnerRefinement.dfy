/**
 The runner among others. Between any two acts of one worker other workers move, leases expire and
 operations are superseded. Whatever the interleaving, the worker's acts are moves of the protocol that
 take effect as the worker sees them, so everything proved of runs is proved of the runner.
 */
module RunnerRefinement {
  import opened OperationSteps
  import opened RunnerProtocol
  import opened RunnerSafety
  import opened Runner

  predicate By(m: Move, t: Token) {
    match m
    case Load(u) => u == t
    case Call(u, _, _) => u == t
    case Claim(u) => u == t
    case Advance(u, _, _) => u == t
    case Fail(u) => u == t
    case Retry(u, _, _) => u == t
    case _ => false
  }

  /** An event of the whole system: an act of the worker, or somebody else's move. */
  datatype Event = Other(m: Move) | Own(a: Act)

  function MoveOf(t: Token, a: Act): Move {
    match a
    case Told(p, r) => Call(t, p, r)
    case Claimed(_, _) => Claim(t)
    case Handed(next, _, _) => Advance(t, next.phase, next.step)
    case GaveBack(phase, step) => Retry(t, phase, step)
  }

  function Moves(t: Token, events: seq<Event>): seq<Move> {
    seq(|events|, i requires 0 <= i < |events| => if events[i].Other? then events[i].m else MoveOf(t, events[i].a))
  }

  function Owns(events: seq<Event>): seq<Act> {
    if events == [] then []
    else
      var rest, e := Owns(events[..|events| - 1]), events[|events| - 1];
      if e.Own? then rest + [e.a] else rest
  }

  /** The system answers truthfully: replies are ones it can give, and a write is reported won exactly when it takes effect. */
  predicate Answered(s: State, t: Token, e: Event)
    requires t in s.workers
  {
    match e
    case Other(m) => !By(m, t)
    case Own(Told(p, r)) => Fits(Held(s, t), s.store, s.authority, p, r)
    case Own(Claimed(won, _)) => won <==> Held(s, t) && s.op == OpState(Pending, s.workers[t].step)
    case Own(Handed(next, took, _)) =>
      took <==> (&& Held(s, t) && s.op == OpState(Running, s.workers[t].step)
                 && AcceptsOn(s.cfg.path, Running, s.workers[t].step, next.phase, next.step) && !next.phase.Failed?)
    case Own(GaveBack(_, _)) => true
  }

  ghost predicate AnsweredAt(s: State, t: Token, events: seq<Event>, i: nat) {
    i < |events| ==> var now := Run(s, Moves(t, events[..i])); t in now.workers && Answered(now, t, events[i])
  }

  ghost predicate AllAnswered(s: State, t: Token, events: seq<Event>) {
    forall i: nat {:trigger AnsweredAt(s, t, events, i)} :: AnsweredAt(s, t, events, i)
  }

  /** The calls a worker made, as logged and as it saw them. */
  function LoggedBy(log: seq<Entry>, t: Token): seq<Act> {
    if log == [] then []
    else
      var rest, e := LoggedBy(log[..|log| - 1], t), log[|log| - 1];
      if e.token == t && !e.port.LoadOperation? then rest + [Told(e.port, e.reply)] else rest
  }

  function CallsIn(acts: seq<Act>): seq<Act> {
    if acts == [] then []
    else
      var rest, a := CallsIn(acts[..|acts| - 1]), acts[|acts| - 1];
      if a.Told? then rest + [a] else rest
  }

  lemma LoggedByAppend(log: seq<Entry>, e: Entry, t: Token)
    ensures LoggedBy(log + [e], t) == LoggedBy(log, t) + if e.token == t && !e.port.LoadOperation? then [Told(e.port, e.reply)] else []
  {
    assert (log + [e])[..|log|] == log;
  }

  lemma MovesAppend(t: Token, events: seq<Event>, s: State)
    requires events != []
    ensures var n := |events| - 1;
            Run(s, Moves(t, events)) == Step(Run(s, Moves(t, events[..n])), Moves(t, events)[n])
  {
    var n := |events| - 1;
    assert Moves(t, events)[..n] == Moves(t, events[..n]);
  }

  /** Other workers never touch this worker or speak in its name. */
  lemma OthersKeepWorker(s: State, m: Move, t: Token)
    requires !By(m, t) && t in s.workers
    ensures Step(s, m).cfg == s.cfg && t in Step(s, m).workers && Step(s, m).workers[t] == s.workers[t]
    ensures LoggedBy(Step(s, m).log, t) == LoggedBy(s.log, t)
  {
    match m
    case Load(u) =>
      LoggedByAppend(s.log, LoadEntry(s, u), t);
    case Call(u, p, r) =>
      if MayCall(s, u, p, r) {
        LoggedByAppend(s.log, Entry(u, s.workers[u].step, p, r, Gain(s.cfg, p, r), Held(s, u)), t);
      }
    case Claim(u) =>
    case Advance(u, phase, step) =>
    case Fail(u) =>
    case Retry(u, phase, step) =>
    case _ =>
  }

  lemma OwnCallTakesEffect(s: State, t: Token, p: Port, r: Reply)
    requires MayCall(s, t, p, r)
    ensures var s' := DoCall(s, t, p, r);
            && s'.cfg == s.cfg && t in s'.workers && s'.workers[t] == Learned(s.cfg, s.workers[t], p, r)
            && LoggedBy(s'.log, t) == LoggedBy(s.log, t) + [Told(p, r)]
  {
    LoggedByAppend(s.log, Entry(t, s.workers[t].step, p, r, Gain(s.cfg, p, r), Held(s, t)), t);
  }

  lemma OwnWriteTakesEffect(s: State, t: Token, a: Act)
    requires t in s.workers && Allowed(s.cfg, s.workers[t], a) && Answered(s, t, Own(a)) && !a.Told?
    ensures var s' := Step(s, MoveOf(t, a));
            s'.cfg == s.cfg && s'.log == s.log && t in s'.workers && s'.workers[t] == ActOn(s.cfg, s.workers[t], a)
  {
    match a
    case Claimed(won, told) =>
    case Handed(next, took, told) =>
    case GaveBack(phase, step) =>
  }

  /** A conditional write that the worker made moved the operation exactly as the worker was answered. */
  predicate Moved(s: State, s': State, w: Worker, a: Act) {
    match a
    case Claimed(won, _) => s'.op == if won then OpState(Running, w.step) else s.op
    case Handed(next, took, _) => s'.op == if took then next else s.op
    case GaveBack(_, step) => s'.op == s.op || (s'.op == OpState(Pending, step) && s.op.step == step)
    case Told(_, _) => s'.op == s.op
  }

  lemma OwnActMoves(s: State, t: Token, a: Act)
    requires t in s.workers && Allowed(s.cfg, s.workers[t], a) && Answered(s, t, Own(a))
    ensures Moved(s, Step(s, MoveOf(t, a)), s.workers[t], a)
  {
    match a
    case Told(p, r) =>
    case Claimed(won, told) =>
    case Handed(next, took, told) =>
    case GaveBack(phase, step) =>
  }

  /** An allowed act that is answered truthfully is a move with the effect the worker sees. */
  lemma OwnActTakesEffect(s: State, t: Token, a: Act)
    requires t in s.workers && Allowed(s.cfg, s.workers[t], a) && Answered(s, t, Own(a))
    ensures var s' := Step(s, MoveOf(t, a));
            && s'.cfg == s.cfg && t in s'.workers && s'.workers[t] == ActOn(s.cfg, s.workers[t], a)
            && LoggedBy(s'.log, t) == LoggedBy(s.log, t) + (if a.Told? then [a] else [])
            && Moved(s, s', s.workers[t], a)
  {
    OwnActMoves(s, t, a);
    if a.Told? {
      OwnCallTakesEffect(s, t, a.port, a.reply);
    } else {
      OwnWriteTakesEffect(s, t, a);
    }
  }

  lemma PrefixAnswered(s: State, t: Token, events: seq<Event>)
    requires events != [] && AllAnswered(s, t, events)
    ensures AllAnswered(s, t, events[..|events| - 1])
  {
    var rest := events[..|events| - 1];
    forall i: nat ensures AnsweredAt(s, t, rest, i) {
      assert AnsweredAt(s, t, events, i);
      if i < |rest| {
        assert rest[..i] == events[..i];
      }
    }
  }

  /**
   Whatever others do between its acts, an execution ends with the worker exactly as the worker sees
   itself, and the log shows exactly its calls, in order and with the replies it got.
   */
  lemma {:induction false} ExecutionIsRun(s: State, t: Token, events: seq<Event>, h: History, w: Worker)
    requires t in s.workers && Behaved(s.cfg, s.workers[t], h, w)
    requires Owns(events) == h.acts && AllAnswered(s, t, events)
    ensures var end := Run(s, Moves(t, events));
            && end.cfg == s.cfg && t in end.workers && end.workers[t] == w
            && LoggedBy(end.log, t) == LoggedBy(s.log, t) + CallsIn(h.acts)
    decreases |events|
  {
    if events != [] {
      var n := |events| - 1;
      var rest, e := events[..n], events[n];
      PrefixAnswered(s, t, events);
      MovesAppend(t, events, s);
      assert AnsweredAt(s, t, events, n);
      var before := Run(s, Moves(t, rest));
      if e.Other? {
        ExecutionIsRun(s, t, rest, h, w);
        OthersKeepWorker(before, e.m, t);
      } else {
        var k := |h.acts| - 1;
        BehavedUntilCrash(s.cfg, s.workers[t], h, w, k);
        ExecutionIsRun(s, t, rest, Prefix(h, k), h.views[k]);
        assert Linked(s.cfg, h, k);
        OwnActTakesEffect(before, t, e.a);
      }
    }
  }

  lemma {:induction false} RunAppend(s: State, a: seq<Move>, b: seq<Move>)
    ensures Run(s, a + b) == Run(Run(s, a), b)
  {
    if b == [] {
      assert a + b == a;
    } else {
      var n := |b| - 1;
      RunAppend(s, a, b[..n]);
      assert (a + b)[..|a + b| - 1] == a + b[..n];
    }
  }

  /** What the runner needs of a load: an active, unfinished worker that was told what its records prove and has not looked yet. */
  ghost predicate Ready(s: State, t: Token) {
    && t in s.workers && !s.workers[t].done && ActivePhase(s.workers[t].phase) && Looked !in s.workers[t].facts
    && s.workers[t].current == s.workers[t].record && QuotaLooked !in s.workers[t].facts
    && Briefed(s.cfg, s.workers[t]) && (s.store.plan ==> PlanKept in s.workers[t].facts)
  }

  lemma LoadBriefs(s: State, t: Token)
    requires Speaks(s, Load(t)) && s.op.step in s.cfg.path
    ensures Ready(DoLoad(s, t), t) && DoLoad(s, t).workers[t].step == s.op.step
  {
    var facts := LoadFacts(s.cfg, s.store);
    assert facts <= LOADED;
  }

  /** A load of a state of any run gives the runner what it needs, at a step of the path. */
  lemma LoadGivesWorker(start: State, before: seq<Move>, t: Token)
    requires Init(start) && Speaks(Run(start, before), Load(t))
    ensures var s := Run(start, before + [Load(t)]); Ready(s, t) && s.workers[t].step in start.cfg.path
  {
    RunKeepsInv(start, before);
    assert (before + [Load(t)])[..|before|] == before;
    var s := Run(start, before);
    assert s.cfg.path[StepIndex(s.cfg.path, s.op.step)] == s.op.step;
    LoadBriefs(s, t);
  }

  /** The operation stands where the worker was told that it handed it over to. */
  ghost predicate HandedOver(end: State, events: seq<Event>) {
    events != [] && events[|events| - 1].Own? && events[|events| - 1].a.Handed? && events[|events| - 1].a.took ==>
      end.op == events[|events| - 1].a.next
  }

  lemma LastHandsOver(s: State, t: Token, events: seq<Event>, h: History, w: Worker)
    requires t in s.workers && Behaved(s.cfg, s.workers[t], h, w)
    requires Owns(events) == h.acts && AllAnswered(s, t, events)
    ensures HandedOver(Run(s, Moves(t, events)), events)
  {
    if events != [] && events[|events| - 1].Own? {
      var n, k := |events| - 1, |h.acts| - 1;
      PrefixAnswered(s, t, events);
      MovesAppend(t, events, s);
      assert AnsweredAt(s, t, events, n);
      BehavedUntilCrash(s.cfg, s.workers[t], h, w, k);
      ExecutionIsRun(s, t, events[..n], Prefix(h, k), h.views[k]);
      assert Linked(s.cfg, h, k);
      OwnActTakesEffect(Run(s, Moves(t, events[..n])), t, events[n].a);
    }
  }

  /**
   An execution that starts in a state of some run, or a part of it up to a crash, ends in a state of a run
   with all that holds of those: the worker is as it sees itself, its calls are logged in order, every
   logged call is justified by what its caller had learned, and a hand-over it was told of has happened.
   */
  lemma ExecutionIsSafe(start: State, before: seq<Move>, t: Token, events: seq<Event>, h: History, w: Worker)
    requires Init(start) && t in Run(start, before).workers && Behaved(start.cfg, Run(start, before).workers[t], h, w)
    requires Owns(events) == h.acts && AllAnswered(Run(start, before), t, events)
    ensures var s, end := Run(start, before), Run(start, before + Moves(t, events));
            && Inv(end) && t in end.workers && end.workers[t] == w && LoggedBy(end.log, t) == LoggedBy(s.log, t) + CallsIn(h.acts)
            && AllJustified(start.cfg, end.log) && HandedOver(end, events)
  {
    RunAppend(start, before, Moves(t, events));
    RunKeepsInv(start, before);
    ExecutionIsRun(Run(start, before), t, events, h, w);
    LastHandsOver(Run(start, before), t, events, h, w);
    RunKeepsInv(start, before + Moves(t, events));
    LogIsJustified(start, before + Moves(t, events));
  }
}
