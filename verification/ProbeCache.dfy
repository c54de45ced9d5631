/**
 The invocation probe cache. A call reads the cache under a mutex, probes without it, and records the
 result under it again, so any number of calls interleave at those two points.
 */
module ProbeCache {
  import opened Text
  import opened Sets

  const MAX_ACTIVE := 4
  const MAX_ENTRIES := 1024
  const UNKNOWN := "unknown"
  const IN_PROGRESS := "invocation_probe_in_progress"
  const CAPACITY := "invocation_probe_capacity"
  /** One minute, in nanoseconds. */
  const LIFETIME := 60_000_000_000

  type CallId = nat
  type Time = int

  datatype Scope = Scope(tenant: string, service: string, generation: int)

  datatype Health = Health(state: string, reason: string, observedAt: Time)

  datatype Entry = Entry(health: Health, expires: Time)

  /** How the first locked section answers: from the cache, with a refusal, or by letting the call probe. */
  datatype Answer = Cached(health: Health) | InProgress | AtCapacity | Probe

  /** A finished probe. */
  datatype Done = Done(scope: Scope, failed: bool, health: Health, at: Time)

  /** The two maps the mutex guards, which call probes which scope, and every probe that ever finished. */
  datatype State = State(entries: map<Scope, Entry>, active: set<Scope>, inFlight: map<CallId, Scope>, done: seq<Done>)

  /** The two locked sections of a call; each is atomic. The clock is read before the first one is entered. */
  datatype Move = Begin(call: CallId, scope: Scope, now: Time) | End(call: CallId, failed: bool, health: Health, at: Time)

  function Live(entries: map<Scope, Entry>, now: Time): map<Scope, Entry> {
    map k | k in entries && now < entries[k].expires :: entries[k]
  }

  function AnswerTo(s: State, scope: Scope, now: Time): Answer {
    if scope in s.entries && now < s.entries[scope].expires then Cached(s.entries[scope].health)
    else if scope in s.active || |s.active| >= MAX_ACTIVE then InProgress
    else if |Live(s.entries, now)| >= MAX_ENTRIES then AtCapacity
    else Probe
  }

  function DoBegin(s: State, call: CallId, scope: Scope, now: Time): State {
    if call in s.inFlight then s
    else
      match AnswerTo(s, scope, now)
      case Probe =>
        s.(entries := Live(s.entries, now), active := s.active + {scope}, inFlight := s.inFlight[call := scope])
      case AtCapacity => s.(entries := Live(s.entries, now))
      case _ => s
  }

  function DoEnd(s: State, call: CallId, failed: bool, health: Health, at: Time): State {
    if call !in s.inFlight then s
    else
      var scope := s.inFlight[call];
      State(if failed || health.state == UNKNOWN then s.entries else s.entries[scope := Entry(health, at + LIFETIME)],
            s.active - {scope}, s.inFlight - {call}, s.done + [Done(scope, failed, health, at)])
  }

  function Step(s: State, m: Move): State {
    match m
    case Begin(call, scope, now) => DoBegin(s, call, scope, now)
    case End(call, failed, health, at) => DoEnd(s, call, failed, health, at)
  }

  function Run(s: State, moves: seq<Move>): State {
    if moves == [] then s else Step(Run(s, moves[..|moves| - 1]), moves[|moves| - 1])
  }

  const EMPTY := State(map[], {}, map[], [])

  /** What the first locked section does, answer by answer. */
  lemma AnswersCached(s: State, call: CallId, scope: Scope, now: Time)
    requires scope in s.entries && now < s.entries[scope].expires
    ensures Step(s, Begin(call, scope, now)) == s && AnswerTo(s, scope, now) == Cached(s.entries[scope].health)
  {
  }

  lemma AnswersBusy(s: State, call: CallId, scope: Scope, now: Time)
    requires !(scope in s.entries && now < s.entries[scope].expires) && (scope in s.active || |s.active| >= MAX_ACTIVE)
    ensures Step(s, Begin(call, scope, now)) == s && AnswerTo(s, scope, now) == InProgress
  {
  }

  lemma AnswersFull(s: State, call: CallId, scope: Scope, now: Time)
    requires !(scope in s.entries && now < s.entries[scope].expires) && scope !in s.active && |s.active| < MAX_ACTIVE
    requires |Live(s.entries, now)| >= MAX_ENTRIES && call !in s.inFlight
    ensures Step(s, Begin(call, scope, now)) == s.(entries := Live(s.entries, now)) && AnswerTo(s, scope, now) == AtCapacity
  {
  }

  lemma AnswersProbe(s: State, call: CallId, scope: Scope, now: Time)
    requires !(scope in s.entries && now < s.entries[scope].expires) && scope !in s.active && |s.active| < MAX_ACTIVE
    requires |Live(s.entries, now)| < MAX_ENTRIES && call !in s.inFlight
    ensures Step(s, Begin(call, scope, now)) == State(Live(s.entries, now), s.active + {scope}, s.inFlight[call := scope], s.done)
    ensures AnswerTo(s, scope, now) == Probe
  {
  }

  // ---- The invariant ----

  /** At most four probes, no scope both cached and probed, and both maps within their bounds. */
  ghost predicate Bounded(entries: set<Scope>, active: set<Scope>) {
    && |active| <= MAX_ACTIVE && entries !! active
    && |entries| + |active| <= MAX_ENTRIES - 1 + MAX_ACTIVE
  }

  ghost predicate Probed(inFlight: map<CallId, Scope>, x: Scope) {
    exists c :: c in inFlight && inFlight[c] == x
  }

  /** Each active scope is probed by exactly one call. */
  ghost predicate Paired(inFlight: map<CallId, Scope>, active: set<Scope>) {
    && (forall c :: c in inFlight ==> inFlight[c] in active)
    && (forall c, d :: c in inFlight && d in inFlight && inFlight[c] == inFlight[d] ==> c == d)
    && (forall x {:trigger Probed(inFlight, x)} :: x in active ==> Probed(inFlight, x))
  }

  /** A finished probe of exactly this scope gave this entry. */
  ghost predicate Earned(s: State, scope: Scope, e: Entry) {
    exists i :: 0 <= i < |s.done| && s.done[i] == Done(scope, false, e.health, e.expires - LIFETIME)
  }

  /** Nothing is cached but what a finished probe of that scope found out. */
  ghost predicate Honest(s: State) {
    forall k :: k in s.entries ==> s.entries[k].health.state != UNKNOWN && Earned(s, k, s.entries[k])
  }

  ghost predicate Inv(s: State) {
    Bounded(s.entries.Keys, s.active) && Paired(s.inFlight, s.active) && Honest(s)
  }

  lemma BeginKeepsBounds(s: State, call: CallId, scope: Scope, now: Time)
    requires Bounded(s.entries.Keys, s.active)
    ensures var s' := DoBegin(s, call, scope, now); Bounded(s'.entries.Keys, s'.active)
  {
    SubsetSize(Live(s.entries, now).Keys, s.entries.Keys);
  }

  lemma EndKeepsBounds(entries: set<Scope>, active: set<Scope>, scope: Scope)
    requires Bounded(entries, active) && scope in active
    ensures Bounded(entries, active - {scope}) && Bounded(entries + {scope}, active - {scope})
  {
    assert active == (active - {scope}) + {scope} && scope !in entries;
  }

  lemma PairedAdds(inFlight: map<CallId, Scope>, active: set<Scope>, call: CallId, scope: Scope)
    requires Paired(inFlight, active) && call !in inFlight && scope !in active
    ensures Paired(inFlight[call := scope], active + {scope})
  {
    var more := inFlight[call := scope];
    forall x | x in active + {scope} ensures Probed(more, x) {
      if x == scope {
        assert more[call] == x;
      } else {
        assert Probed(inFlight, x);
        var c :| c in inFlight && inFlight[c] == x;
        assert more[c] == x;
      }
    }
  }

  lemma PairedDrops(inFlight: map<CallId, Scope>, active: set<Scope>, call: CallId)
    requires Paired(inFlight, active) && call in inFlight
    ensures Paired(inFlight - {call}, active - {inFlight[call]})
  {
    var fewer := inFlight - {call};
    forall x | x in active - {inFlight[call]} ensures Probed(fewer, x) {
      assert Probed(inFlight, x);
      var c :| c in inFlight && inFlight[c] == x;
      assert fewer[c] == x;
    }
  }

  lemma StepKeepsHonest(s: State, m: Move)
    requires Honest(s)
    ensures Honest(Step(s, m))
  {
    var s' := Step(s, m);
    assert s.done <= s'.done;
    forall k | k in s'.entries ensures s'.entries[k].health.state != UNKNOWN && Earned(s', k, s'.entries[k]) {
      if k in s.entries && s'.entries[k] == s.entries[k] {
        var i :| 0 <= i < |s.done| && s.done[i] == Done(k, false, s.entries[k].health, s.entries[k].expires - LIFETIME);
        assert s'.done[i] == s.done[i];
      } else {
        assert s'.done[|s.done|] == Done(k, false, s'.entries[k].health, s'.entries[k].expires - LIFETIME);
      }
    }
  }

  lemma BeginKeepsInv(s: State, call: CallId, scope: Scope, now: Time)
    requires Inv(s)
    ensures Inv(DoBegin(s, call, scope, now))
  {
    StepKeepsHonest(s, Begin(call, scope, now));
    BeginKeepsBounds(s, call, scope, now);
    if call !in s.inFlight && AnswerTo(s, scope, now).Probe? {
      PairedAdds(s.inFlight, s.active, call, scope);
    }
  }

  lemma EndKeepsInv(s: State, call: CallId, failed: bool, health: Health, at: Time)
    requires Inv(s)
    ensures Inv(DoEnd(s, call, failed, health, at))
  {
    StepKeepsHonest(s, End(call, failed, health, at));
    if call in s.inFlight {
      EndKeepsBounds(s.entries.Keys, s.active, s.inFlight[call]);
      PairedDrops(s.inFlight, s.active, call);
    }
  }

  lemma StepKeepsInv(s: State, m: Move)
    requires Inv(s)
    ensures Inv(Step(s, m))
  {
    match m
    case Begin(call, scope, now) => BeginKeepsInv(s, call, scope, now);
    case End(call, failed, health, at) => EndKeepsInv(s, call, failed, health, at);
  }

  // ---- Over every interleaving ----

  lemma {:induction false} RunKeepsInv(moves: seq<Move>)
    ensures Inv(Run(EMPTY, moves))
  {
    if moves != [] {
      RunKeepsInv(moves[..|moves| - 1]);
      StepKeepsInv(Run(EMPTY, moves[..|moves| - 1]), moves[|moves| - 1]);
    }
  }

  lemma {:induction false} SameSize(inFlight: map<CallId, Scope>, active: set<Scope>)
    requires Paired(inFlight, active)
    ensures |inFlight| == |active|
    decreases inFlight.Keys
  {
    if inFlight == map[] {
      assert forall x :: x in active ==> Probed(inFlight, x);
    } else {
      var call :| call in inFlight;
      PairedDrops(inFlight, active, call);
      SameSize(inFlight - {call}, active - {inFlight[call]});
      assert inFlight.Keys == (inFlight - {call}).Keys + {call};
    }
  }

  /** At most four probes are ever in flight, no two for one scope, and the maps stay disjoint and bounded. */
  lemma ProbesBounded(moves: seq<Move>)
    ensures var s := Run(EMPTY, moves);
            && |s.inFlight| <= 4 && |s.entries| + |s.active| <= 1027 && s.entries.Keys !! s.active
            && (forall c, d :: c in s.inFlight && d in s.inFlight && s.inFlight[c] == s.inFlight[d] ==> c == d)
  {
    RunKeepsInv(moves);
    var s := Run(EMPTY, moves);
    SameSize(s.inFlight, s.active);
  }

  lemma OneMoreMove(moves: seq<Move>, m: Move)
    ensures Run(EMPTY, moves + [m]) == Step(Run(EMPTY, moves), m)
  {
    assert (moves + [m])[..|moves|] == moves;
  }

  /** `n` scopes are cached and `a` others probed, all named by small numbers and nothing expired at time 0. */
  ghost predicate Filled(s: State, n: nat, a: nat) {
    && |s.entries| == n && |s.active| == a && (forall c :: c in s.inFlight ==> c < a)
    && (forall k :: k in s.entries ==> 0 < s.entries[k].expires && k.generation < n + a) && (forall k :: k in s.active ==> k.generation < n + a)
  }

  function Numbered(i: nat): Scope {
    Scope("", "", i)
  }

  /** The next number is free. */
  lemma NextIsFree(s: State, n: nat, a: nat)
    requires Filled(s, n, a)
    ensures Numbered(n + a) !in s.entries && Numbered(n + a) !in s.active && a !in s.inFlight && Live(s.entries, 0) == s.entries
  {
  }

  lemma FilledGrows(s: State, n: nat, a: nat, s': State)
    requires Filled(s, n, a) && Numbered(n + a) !in s.active
    requires s' == State(s.entries, s.active + {Numbered(n + a)}, s.inFlight[a := Numbered(n + a)], s.done)
    ensures Filled(s', n, a + 1)
  {
  }

  lemma OneProbeMore(s: State, n: nat, a: nat)
    requires Filled(s, n, a) && n < MAX_ENTRIES && a < MAX_ACTIVE
    ensures var s' := Step(s, Begin(a, Numbered(n + a), 0));
            Filled(s', n, a + 1) && a in s'.inFlight && s'.inFlight[a] == Numbered(n + a) && Numbered(n + a) in s'.active
  {
    NextIsFree(s, n, a);
    AnswersProbe(s, a, Numbered(n + a), 0);
    FilledGrows(s, n, a, Step(s, Begin(a, Numbered(n + a), 0)));
  }

  lemma OneEntryMore(s: State, n: nat)
    requires Filled(s, n, 1) && 0 in s.inFlight && s.inFlight[0] == Numbered(n) && Numbered(n) in s.active && Numbered(n) !in s.entries
    ensures Filled(Step(s, FOUND), n + 1, 0)
  {
    assert s.active == (s.active - {Numbered(n)}) + {Numbered(n)};
    assert s.entries[Numbered(n) := Entry(Health("", "", 0), LIFETIME)].Keys == s.entries.Keys + {Numbered(n)};
  }

  const FOUND := End(0, false, Health("", "", 0), 0)

  function Probing(n: nat): Move {
    Begin(0, Numbered(n), 0)
  }

  lemma ProbedAndCached(s: State, n: nat)
    requires Filled(s, n, 0) && n < MAX_ENTRIES
    ensures Filled(Step(Step(s, Probing(n)), FOUND), n + 1, 0)
  {
    NextIsFree(s, n, 0);
    AnswersProbe(s, 0, Numbered(n), 0);
    OneProbeMore(s, n, 0);
    OneEntryMore(Step(s, Probing(n)), n);
  }

  lemma CacheMore(before: seq<Move>, n: nat) returns (moves: seq<Move>)
    requires Filled(Run(EMPTY, before), n, 0) && n < MAX_ENTRIES
    ensures Filled(Run(EMPTY, moves), n + 1, 0)
  {
    OneMoreMove(before, Probing(n));
    OneMoreMove(before + [Probing(n)], FOUND);
    ProbedAndCached(Run(EMPTY, before), n);
    moves := before + [Probing(n)] + [FOUND];
  }

  /** One probe after another, `n` scopes get cached. */
  lemma {:induction false} Fill(n: nat) returns (moves: seq<Move>)
    requires n <= MAX_ENTRIES
    ensures Filled(Run(EMPTY, moves), n, 0)
  {
    if n == 0 {
      moves := [];
    } else {
      var before := Fill(n - 1);
      moves := CacheMore(before, n - 1);
    }
  }

  lemma ProbeMore(before: seq<Move>, n: nat, a: nat) returns (moves: seq<Move>)
    requires Filled(Run(EMPTY, before), n, a) && n < MAX_ENTRIES && a < MAX_ACTIVE
    ensures Filled(Run(EMPTY, moves), n, a + 1)
  {
    OneProbeMore(Run(EMPTY, before), n, a);
    OneMoreMove(before, Begin(a, Numbered(n + a), 0));
    moves := before + [Begin(a, Numbered(n + a), 0)];
  }

  /** The bound is attained: some run caches 1023 scopes while four others are probed. */
  lemma BoundIsTight()
    ensures exists moves :: |Run(EMPTY, moves).entries| + |Run(EMPTY, moves).active| == 1027
  {
    var moves := Fill(MAX_ENTRIES - 1);
    moves := ProbeMore(moves, MAX_ENTRIES - 1, 0);
    moves := ProbeMore(moves, MAX_ENTRIES - 1, 1);
    moves := ProbeMore(moves, MAX_ENTRIES - 1, 2);
    moves := ProbeMore(moves, MAX_ENTRIES - 1, 3);
    assert |Run(EMPTY, moves).entries| + |Run(EMPTY, moves).active| == 1027;
  }

  /** An unknown result is never in the cache. */
  lemma UnknownNeverCached(moves: seq<Move>, scope: Scope)
    ensures var s := Run(EMPTY, moves); scope in s.entries ==> s.entries[scope].health.state != "unknown"
  {
    RunKeepsInv(moves);
  }

  /** A cached answer is the result of a finished probe of that very scope, less than a minute old when the caller read the clock. */
  lemma CachedAnswerIsFresh(moves: seq<Move>, scope: Scope, now: Time) returns (i: nat)
    requires AnswerTo(Run(EMPTY, moves), scope, now).Cached?
    ensures var s := Run(EMPTY, moves);
            && i < |s.done| && s.done[i].scope == scope && !s.done[i].failed && now < s.done[i].at + 60_000_000_000
            && AnswerTo(s, scope, now).health == s.done[i].health && s.done[i].health.state != "unknown"
  {
    RunKeepsInv(moves);
    var s := Run(EMPTY, moves);
    assert Earned(s, scope, s.entries[scope]);
    i :| 0 <= i < |s.done| && s.done[i] == Done(scope, false, s.entries[scope].health, s.entries[scope].expires - LIFETIME);
  }

  /** Right after a probe its scope is answered from the cache exactly if the result is known, and for a minute. */
  lemma CachedForAMinute(moves: seq<Move>, call: CallId, failed: bool, health: Health, at: Time, now: Time)
    requires call in Run(EMPTY, moves).inFlight
    ensures var s := Run(EMPTY, moves);
            AnswerTo(Step(s, End(call, failed, health, at)), s.inFlight[call], now).Cached? <==>
              !failed && health.state != "unknown" && now < at + 60_000_000_000
  {
    RunKeepsInv(moves);
  }

  lemma NextMove(before: seq<Move>, moves: seq<Move>, i: nat)
    requires i < |moves|
    ensures before + moves[..i + 1] == before + moves[..i] + [moves[i]]
  {
    assert moves[..i + 1] == moves[..i] + [moves[i]];
  }

  // ---- The cache ----

  class Cache {
    var entries: map<Scope, Entry>
    var active: set<Scope>
    /** Which scope each unfinished call is probing. */
    var inFlight: map<CallId, Scope>
    ghost var done: seq<Done>
    ghost var trace: seq<Move>

    ghost function World(): State
      reads this
    {
      State(entries, active, inFlight, done)
    }

    ghost predicate Valid()
      reads this
    {
      World() == Run(EMPTY, trace)
    }

    constructor ()
      ensures Valid() && trace == []
    {
      entries, active, inFlight, done, trace := map[], {}, map[], [], [];
    }

    /** Drops every entry that has expired. */
    method Purge(now: Time)
      modifies this`entries
      ensures entries == Live(old(entries), now)
    {
      var keys := entries.Keys;
      while keys != {}
        invariant keys <= entries.Keys <= old(entries).Keys
        invariant forall k :: k in entries ==> entries[k] == old(entries)[k] && (k in keys || now < entries[k].expires)
        invariant forall k :: k in old(entries) && now < old(entries)[k].expires ==> k in entries
        decreases |keys|
      {
        var k :| k in keys;
        if !(now < entries[k].expires) {
          entries := entries - {k};
        }
        keys := keys - {k};
      }
    }

    /** The first locked section. */
    method Enter(call: CallId, scope: Scope, now: Time) returns (answer: Answer)
      requires Valid() && call !in inFlight
      modifies this
      ensures Valid() && trace == old(trace) + [Begin(call, scope, now)]
      ensures answer == AnswerTo(old(World()), scope, now)
      ensures answer.Probe? ==> call in inFlight && inFlight[call] == scope
      ensures forall c :: c in old(inFlight) ==> c in inFlight && inFlight[c] == old(inFlight)[c]
    {
      ghost var before := World();
      OneMoreMove(trace, Begin(call, scope, now));
      trace := trace + [Begin(call, scope, now)];
      if scope in entries && now < entries[scope].expires {
        AnswersCached(before, call, scope, now);
        return Cached(entries[scope].health);
      }
      if scope in active || |active| >= MAX_ACTIVE {
        AnswersBusy(before, call, scope, now);
        return InProgress;
      }
      Purge(now);
      if |entries| >= MAX_ENTRIES {
        AnswersFull(before, call, scope, now);
        return AtCapacity;
      }
      AnswersProbe(before, call, scope, now);
      active := active + {scope};
      inFlight := inFlight[call := scope];
      answer := Probe;
    }

    /** The second locked section: records a known result and frees the scope. */
    method Leave(call: CallId, scope: Scope, failed: bool, health: Health, at: Time)
      requires Valid() && call in inFlight && inFlight[call] == scope
      modifies this
      ensures Valid() && trace == old(trace) + [End(call, failed, health, at)]
      ensures forall c :: c in old(inFlight) && c != call ==> c in inFlight && inFlight[c] == old(inFlight)[c]
    {
      OneMoreMove(trace, End(call, failed, health, at));
      trace := trace + [End(call, failed, health, at)];
      active := active - {scope};
      if !failed && health.state != UNKNOWN {
        entries := entries[scope := Entry(health, at + LIFETIME)];
      }
      inFlight, done := inFlight - {call}, done + [Done(scope, failed, health, at)];
    }

    /** Other calls enter and leave while this one probes. */
    method Others(ghost call: CallId, moves: seq<Move>)
      requires Valid() && forall i :: 0 <= i < |moves| ==> moves[i].call != call
      modifies this
      ensures Valid() && trace == old(trace) + moves
      ensures call in old(inFlight) ==> call in inFlight && inFlight[call] == old(inFlight)[call]
    {
      for i := 0 to |moves|
        invariant Valid() && trace == old(trace) + moves[..i]
        invariant call in old(inFlight) ==> call in inFlight && inFlight[call] == old(inFlight)[call]
      {
        NextMove(old(trace), moves, i);
        OtherMove(moves[i]);
      }
      assert moves[..|moves|] == moves;
    }

    method OtherMove(m: Move)
      requires Valid()
      modifies this
      ensures Valid() && trace == old(trace) + [m]
      ensures forall c :: c in old(inFlight) && c != m.call ==> c in inFlight && inFlight[c] == old(inFlight)[c]
    {
      OneMoreMove(trace, m);
      if m.Begin? && m.call !in inFlight {
        var _ := Enter(m.call, m.scope, m.now);
      } else if m.End? && m.call in inFlight {
        Leave(m.call, inFlight[m.call], m.failed, m.health, m.at);
      } else {
        trace := trace + [m];
      }
    }

    /**
     One observation. `during` is what other calls do between its two locked sections; `health`, `failed`
     and `at` are what its own probe brings and when.
     */
    method Observe(call: CallId, scope: Scope, now: Time, during: seq<Move>, failed: bool, health: Health, at: Time)
      returns (result: Option<Health>)
      requires Valid() && call !in inFlight && forall i :: 0 <= i < |during| ==> during[i].call != call
      modifies this
      ensures Valid()
      ensures var answer := AnswerTo(old(World()), scope, now);
              && (answer.Probe? ==> trace == old(trace) + [Begin(call, scope, now)] + during + [End(call, failed, health, at)])
              && (!answer.Probe? ==> trace == old(trace) + [Begin(call, scope, now)])
              && result == if answer.Cached? then Some(answer.health)
                           else if answer.InProgress? then Some(Health("unknown", "invocation_probe_in_progress", 0))
                           else if answer.AtCapacity? then Some(Health("unknown", "invocation_probe_capacity", 0))
                           else if failed then None else Some(health)
    {
      var answer := Enter(call, scope, now);
      match answer
      case Cached(known) => return Some(known);
      case InProgress => return Some(Health(UNKNOWN, IN_PROGRESS, 0));
      case AtCapacity => return Some(Health(UNKNOWN, CAPACITY, 0));
      case Probe =>
        Others(call, during);
        Leave(call, scope, failed, health, at);
        result := if failed then None else Some(health);
    }
  }
}
