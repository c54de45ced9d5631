/**
 Quota is not held twice and not left behind, over every run of the runner protocol, exactly as far as
 the rows a load shows are all there is: a replacement holds its own quota only after the earlier
 reservation it was shown is released, and a stop or delete gives up the one it was shown.
 */
module QuotaConservation {
  import opened OperationSteps
  import opened RunnerProtocol
  import opened RunnerSafety
  import opened QuotaSafety

  /** The authority does not hold this reservation any more. */
  ghost predicate SettledIn(books: map<string, Reservation>, id: string) {
    id in books ==> books[id].state.Released?
  }

  /** The authority holds this reservation for the service. */
  ghost predicate ServiceHolds(cfg: Config, books: map<string, Reservation>, k: string) {
    k in books && books[k].owner.tenant == cfg.id.tenant && books[k].owner.service == cfg.id.service && !books[k].state.Released?
  }

  /** The authority holds a reservation of this very operation. */
  ghost predicate HeldIn(books: map<string, Reservation>, id: Identity) {
    exists k :: k in books && HeldAt(books, k, id)
  }

  ghost predicate HeldAt(books: map<string, Reservation>, k: string, id: Identity)
    requires k in books
  {
    books[k].owner == id && !books[k].state.Released?
  }

  /** A worker's step is on the path, the steps before it are complete, and what it knows was learned. */
  ghost predicate Informed(s: State, t: Token) {
    && GoodPath(s.cfg.path) && t in s.workers && s.workers[t].facts <= FactsOf(s.log)
    && s.workers[t].step in s.cfg.path && EarlierLeft(s.cfg, s.workers[t].step, s.log)
  }

  lemma WorkersInformed(s: State, t: Token)
    requires Inv(s) && t in s.workers
    ensures Informed(s, t)
  {
    FactsByAreFacts(s.log, t);
    assert s.cfg.path[StepIndex(s.cfg.path, s.workers[t].step)] == s.workers[t].step;
  }

  /** The row of `r` has its id, qualifies to be shown, and no newer row up to `g` does. */
  ghost predicate OnTop(rows: map<int, Reservation>, g: int, pendingToo: bool, r: Reservation) {
    && HasRow(rows, r) && 1 <= r.owner.generation && rows[r.owner.generation].id == r.id
    && IsNewest(rows, g, pendingToo, r.owner.generation)
  }

  lemma TopIsShown(rows: map<int, Reservation>, g: int, pendingToo: bool, r: Reservation)
    requires OnTop(rows, g, pendingToo, r) && r.id != ""
    ensures Newest(rows, g, pendingToo) == rows[r.owner.generation]
  {
    NewestIs(rows, g, pendingToo);
    var shown := Newest(rows, g, pendingToo);
    if shown != NoReservation() {
      var k :| 1 <= k <= g && k in rows && shown == rows[k] && IsNewest(rows, g, pendingToo, k);
    }
  }

  lemma ShownIsTop(cfg: Config, rows: map<int, Reservation>, g: int, pendingToo: bool)
    requires RowsKept(cfg, rows) && Newest(rows, g, pendingToo).id != ""
    ensures OnTop(rows, g, pendingToo, Newest(rows, g, pendingToo))
  {
    NewestIs(rows, g, pendingToo);
    var shown := Newest(rows, g, pendingToo);
    var k :| 1 <= k <= g && k in rows && shown == rows[k] && IsNewest(rows, g, pendingToo, k);
    assert RowKept(cfg, k, rows[k]);
  }

  /** Recording a pending release keeps the row on top. */
  lemma TopStays(rows: map<int, Reservation>, g: int, pendingToo: bool, r: Reservation, x: Reservation)
    requires OnTop(rows, g, pendingToo, r)
    requires (x.owner == r.owner && x.id == r.id && x.state.ReleasePending?) || x.owner.generation > g
    ensures OnTop(Recorded(rows, x), g, pendingToo, r)
  {
    var rows' := Recorded(rows, x);
    assert forall j :: j in rows' && j != x.owner.generation ==> rows'[j] == rows[j];
  }

  // ---- The earlier reservation of a replacement ----

  /** The path gives up the earlier reservation before it reserves. */
  ghost predicate Replaces(cfg: Config) {
    QuotaOwned(cfg) && Precedes(cfg.path, ReleasePreviousQuota, ReserveQuota) && ReleaseQuota !in cfg.path
  }

  /** Nobody has released `first` yet: it is what every load shows and has shown. */
  ghost predicate StillPrevious(s: State, first: Reservation) {
    && OnTop(s.store.rows, s.cfg.id.generation - 1, false, first)
    && PreviousReleased !in FactsOf(s.log) && PreviousCleared !in FactsOf(s.log)
    && forall t :: t in s.workers ==> s.workers[t].previous.id == first.id && s.workers[t].previous.owner == first.owner
  }

  /** Settled at the authority, or still there for everybody; and quota is held for the operation only after it was cleared. */
  ghost predicate Conserved(s: State, first: Reservation) {
    && (SettledIn(s.authority, first.id) || StillPrevious(s, first))
    && (HeldIn(s.authority, s.cfg.id) ==> PreviousCleared in FactsOf(s.log))
  }

  /** `first` is an earlier reservation of the service. */
  ghost predicate Earlier(cfg: Config, rows: map<int, Reservation>, first: Reservation) {
    first.id != "" ==> HasRow(rows, first) && rows[first.owner.generation].id == first.id && first.owner.generation < cfg.id.generation
  }

  /** A released earlier reservation is not revived, and releasing it settles it. */
  lemma CallKeepsSettled(cfg: Config, held: bool, store: Store, books: map<string, Reservation>, w: Worker, p: Port, r: Reply, first: Reservation)
    requires Argued(cfg, w, p) && Fits(held, store, books, p, r) && (!r.failed || r.applied)
    requires RowsKept(cfg, store.rows) && EarlierNotOwn(cfg, store.rows, books) && "" !in books && Earlier(cfg, store.rows, first)
    ensures var books' := AuthorityEffect(books, p, r);
            && (SettledIn(books, first.id) ==> SettledIn(books', first.id))
            && (p.ReleasePrevious? && p.r.id == first.id ==> SettledIn(books', first.id))
  {
    if first.id != "" {
      assert RowKept(cfg, first.owner.generation, store.rows[first.owner.generation]);
    }
  }

  /** What a call teaches of the earlier reservation. */
  lemma TaughtOfPrevious(cfg: Config, w: Worker, p: Port, r: Reply)
    requires Prior(cfg, w.step, p) <= w.facts
    ensures PreviousReleased in Gain(cfg, p, r) ==> p.ReleasePrevious? && !r.failed
    ensures PreviousCleared in Gain(cfg, p, r) ==> p.SavePrevious? && !r.failed && PreviousReleased in w.facts
  {
    assert PreviousReleased in Gain(cfg, p, r) ==> Teaches(cfg, p, r, PreviousReleased);
    assert PreviousCleared in Gain(cfg, p, r) ==> Teaches(cfg, p, r, PreviousCleared);
    if p.SavePrevious? && p.r.state.Released? {
      assert Prior(cfg, w.step, p) == {PreviousReleased};
    }
  }

  /** While nobody has released it, a call leaves the earlier row on top. */
  lemma RowOfPrevious(cfg: Config, store: Store, w: Worker, p: Port, first: Reservation)
    requires Prior(cfg, w.step, p) <= w.facts && Argued(cfg, w, p) && !p.SaveReleased? && PreviousReleased !in w.facts
    requires OnTop(store.rows, cfg.id.generation - 1, false, first) && w.previous.id == first.id && w.previous.owner == first.owner
    ensures OnTop(StoreEffect(store, p).rows, cfg.id.generation - 1, false, first)
  {
    if p.SaveReservation? || p.SavePrevious? {
      TopStays(store.rows, cfg.id.generation - 1, false, first, p.r);
    }
  }

  lemma NotReleaseStep(p: Port, step: StepName)
    requires AtStep(p, step) && step != ReleaseQuota
    ensures !p.SaveReleased? && !p.ReleaseCurrent?
  {
  }

  /** Only reserving and confirming make the authority hold quota for this operation. */
  lemma CallKeepsHeld(cfg: Config, books: map<string, Reservation>, p: Port, r: Reply)
    requires HeldIn(AuthorityEffect(books, p, r), cfg.id)
    ensures HeldIn(books, cfg.id) || p.Reserve? || p.Confirm?
  {
    var books' := AuthorityEffect(books, p, r);
    var k :| k in books' && HeldAt(books', k, cfg.id);
    if !p.Reserve? && !p.Confirm? {
      assert k in books && HeldAt(books, k, cfg.id);
    }
  }

  lemma OnlyQuotaStep(p: Port, step: StepName)
    requires AtStep(p, step) && (p.Reserve? || p.Confirm?)
    ensures step == ReserveQuota
  {
  }

  /** At the quota step of a replacement the earlier reservation has been cleared. */
  lemma ClearedAtQuota(cfg: Config, step: StepName, log: seq<Entry>)
    requires GoodPath(cfg.path) && Replaces(cfg) && step == ReserveQuota && EarlierLeft(cfg, step, log)
    ensures PreviousCleared in FactsOf(log)
  {
    PrecedesIndex(cfg.path, ReleasePreviousQuota, ReserveQuota);
    assert cfg.path[StepIndex(cfg.path, ReleasePreviousQuota)] == ReleasePreviousQuota;
    assert LeftBy(cfg, log, ReleasePreviousQuota);
    LeftIsLearned(cfg, log, ReleasePreviousQuota);
  }

  lemma CallKeepsStill(s: State, t: Token, p: Port, r: Reply, first: Reservation)
    requires Informed(s, t) && MayCall(s, t, p, r) && Replaces(s.cfg) && StillPrevious(s, first)
    requires !(p.ReleasePrevious? && (!r.failed || r.applied))
    ensures StillPrevious(DoCall(s, t, p, r), first)
  {
    var s', w := DoCall(s, t, p, r), s.workers[t];
    FactsAppend(s.log, s'.log[|s.log|], t);
    TaughtOfPrevious(s.cfg, w, p, r);
    NotReleaseStep(p, w.step);
    RowOfPrevious(s.cfg, s.store, w, p, first);
  }

  lemma CallKeepsConserved(s: State, t: Token, p: Port, r: Reply, first: Reservation)
    requires Informed(s, t) && Books(s) && Replaces(s.cfg) && Conserved(s, first) && Earlier(s.cfg, s.store.rows, first) && MayCall(s, t, p, r)
    ensures Conserved(DoCall(s, t, p, r), first)
  {
    var s', w := DoCall(s, t, p, r), s.workers[t];
    FactsAppend(s.log, s'.log[|s.log|], t);
    if !r.failed || r.applied {
      CallKeepsSettled(s.cfg, Held(s, t), s.store, s.authority, w, p, r, first);
    }
    if !SettledIn(s'.authority, first.id) {
      CallKeepsStill(s, t, p, r, first);
    }
    if HeldIn(s'.authority, s.cfg.id) && !HeldIn(s.authority, s.cfg.id) {
      HeldWhenCleared(s, t, p, r);
    }
  }

  /** A call that makes the authority hold quota for the operation is made when the earlier quota was cleared. */
  lemma HeldWhenCleared(s: State, t: Token, p: Port, r: Reply)
    requires Informed(s, t) && Replaces(s.cfg) && MayCall(s, t, p, r)
    requires HeldIn(DoCall(s, t, p, r).authority, s.cfg.id) && !HeldIn(s.authority, s.cfg.id)
    ensures PreviousCleared in FactsOf(s.log)
  {
    CallKeepsHeld(s.cfg, s.authority, p, r);
    OnlyQuotaStep(p, s.workers[t].step);
    ClearedAtQuota(s.cfg, s.workers[t].step, s.log);
  }

  lemma LoadKeepsConserved(s: State, t: Token, first: Reservation)
    requires Conserved(s, first) && (s.cfg.kind == UpdateOp || s.cfg.kind == Restart) && first.id != "" && Speaks(s, Load(t))
    ensures Conserved(DoLoad(s, t), first)
  {
    FactsAppend(s.log, LoadEntry(s, t), t);
    if !SettledIn(s.authority, first.id) {
      TopIsShown(s.store.rows, s.cfg.id.generation - 1, false, first);
    }
  }

  /** A run of a replacement, whose previous reservation at the start was `first`. */
  ghost predicate Replacing(s: State, first: Reservation) {
    && Replaces(s.cfg) && (s.cfg.kind == UpdateOp || s.cfg.kind == Restart) && first.id != ""
    && Earlier(s.cfg, s.store.rows, first) && Conserved(s, first)
  }

  lemma StepKeepsEarlier(s: State, m: Move, first: Reservation)
    requires Books(s) && Earlier(s.cfg, s.store.rows, first)
    ensures Earlier(s.cfg, Step(s, m).store.rows, first)
  {
    if !Speaks(s, m) {
      OtherMovesAreQuiet(s, m);
    } else if m.Call? {
      CallKeepsRecords(s.cfg, Held(s, m.token), s.store, s.authority, s.workers[m.token], m.port, m.reply);
    }
  }

  lemma QuietKeepsConserved(s: State, s': State, first: Reservation)
    requires Conserved(s, first) && Quiet(s, s')
    ensures Conserved(s', first)
  {
    forall t | t in s'.workers ensures s'.workers[t].previous == s.workers[t].previous {
      assert SameKnowledge(s.workers[t], s'.workers[t]);
    }
  }

  lemma StepKeepsReplacing(s: State, m: Move, first: Reservation)
    requires Inv(s) && Books(s) && Replacing(s, first)
    ensures Replacing(Step(s, m), first)
  {
    StepKeepsEarlier(s, m, first);
    StepKeepsConfig(s, m);
    if !Speaks(s, m) {
      OtherMovesAreQuiet(s, m);
      QuietKeepsConserved(s, Step(s, m), first);
    } else if m.Load? {
      LoadKeepsConserved(s, m.token, first);
    } else {
      WorkersInformed(s, m.token);
      CallKeepsConserved(s, m.token, m.port, m.reply, first);
    }
  }

  lemma {:induction false} RunKeepsReplacing(s: State, moves: seq<Move>)
    requires Init(s) && Replaces(s.cfg) && (s.cfg.kind == UpdateOp || s.cfg.kind == Restart) && !HeldIn(s.authority, s.cfg.id)
    requires ShownPrevious(s.cfg, s.store.rows).id != ""
    ensures Replacing(Run(s, moves), ShownPrevious(s.cfg, s.store.rows))
  {
    if moves == [] {
      ShownIsTop(s.cfg, s.store.rows, s.cfg.id.generation - 1, false);
    } else {
      var before := moves[..|moves| - 1];
      RunKeepsReplacing(s, before);
      RunKeepsInv(s, before);
      RunKeepsBooks(s, before);
      StepKeepsReplacing(Run(s, before), moves[|moves| - 1], ShownPrevious(s.cfg, s.store.rows));
    }
  }

  /** The replaced reservation is settled at the authority before quota is held for the operation. */
  lemma HeldAfterRelease(s: State, moves: seq<Move>)
    requires Init(s) && Replaces(s.cfg) && (s.cfg.kind == UpdateOp || s.cfg.kind == Restart) && !HeldIn(s.authority, s.cfg.id)
    requires HeldIn(Run(s, moves).authority, s.cfg.id)
    ensures SettledIn(Run(s, moves).authority, ShownPrevious(s.cfg, s.store.rows).id)
  {
    var first := ShownPrevious(s.cfg, s.store.rows);
    RunKeepsBooks(s, moves);
    if first.id != "" {
      RunKeepsReplacing(s, moves);
      RunKeepsInv(s, moves);
    }
  }

  // ---- No double hold ----

  /** Whatever the authority holds for other operations of the service, it held from the start. */
  ghost predicate NoneNew(cfg: Config, start: map<string, Reservation>, books: map<string, Reservation>) {
    forall k :: ServiceHolds(cfg, books, k) && books[k].owner != cfg.id ==> ServiceHolds(cfg, start, k)
  }

  lemma CallAddsNone(cfg: Config, held: bool, store: Store, start: map<string, Reservation>, books: map<string, Reservation>, w: Worker, p: Port, r: Reply)
    requires Argued(cfg, w, p) && Fits(held, store, books, p, r) && (!r.failed || r.applied) && NoneNew(cfg, start, books)
    ensures NoneNew(cfg, start, AuthorityEffect(books, p, r))
  {
    var books' := AuthorityEffect(books, p, r);
    forall k | ServiceHolds(cfg, books', k) && books'[k].owner != cfg.id ensures ServiceHolds(cfg, start, k) {
      assert ServiceHolds(cfg, books, k);
    }
  }

  lemma {:induction false} RunAddsNone(s: State, moves: seq<Move>)
    requires Init(s)
    ensures NoneNew(s.cfg, s.authority, Run(s, moves).authority) && Run(s, moves).cfg == s.cfg
  {
    if moves != [] {
      var before, m := Run(s, moves[..|moves| - 1]), moves[|moves| - 1];
      RunAddsNone(s, moves[..|moves| - 1]);
      StepKeepsConfig(before, m);
      if !Speaks(before, m) {
        OtherMovesAreQuiet(before, m);
      } else if m.Call? && (!m.reply.failed || m.reply.applied) {
        CallAddsNone(s.cfg, Held(before, m.token), before.store, s.authority, before.authority, before.workers[m.token], m.port, m.reply);
      }
    }
  }

  /** All that the authority holds for the service is the earlier reservation that a load shows. */
  ghost predicate SoleEarlier(s: State) {
    forall k :: ServiceHolds(s.cfg, s.authority, k) ==> k == ShownPrevious(s.cfg, s.store.rows).id
  }

  /** The authority holds two reservations of the service at once, one of them this operation's. */
  ghost predicate DoubleHold(s: State) {
    HeldIn(s.authority, s.cfg.id) && exists k :: ServiceHolds(s.cfg, s.authority, k) && s.authority[k].owner != s.cfg.id
  }

  /**
   No double hold: where the earlier reservation that a load shows is all the authority holds for the
   service, it never holds quota for the replacement and for an earlier operation at once.
   */
  lemma NoDoubleHold(s: State, moves: seq<Move>)
    requires Init(s) && Replaces(s.cfg) && (s.cfg.kind == UpdateOp || s.cfg.kind == Restart)
    requires !HeldIn(s.authority, s.cfg.id) && SoleEarlier(s)
    ensures !DoubleHold(Run(s, moves))
  {
    RunAddsNone(s, moves);
    if HeldIn(Run(s, moves).authority, s.cfg.id) {
      HeldAfterRelease(s, moves);
    }
  }

  // ---- The reservation of a stop or delete ----

  /** A path that gives the reservation up for good. */
  ghost predicate Ends(cfg: Config) {
    QuotaOwned(cfg) && ReleaseQuota in cfg.path && ReserveQuota !in cfg.path && ReleasePreviousQuota !in cfg.path
  }

  /** Gone at the authority, or a local placeholder that is cancelled without asking. */
  ghost predicate Gone(cfg: Config, books: map<string, Reservation>, first: Reservation) {
    SettledIn(books, first.id) || Cancellable(cfg, first)
  }

  /** Nobody has released `first` yet: it is what every load shows and has shown. */
  ghost predicate StillCurrent(s: State, first: Reservation) {
    && OnTop(s.store.rows, s.cfg.id.generation, true, first)
    && (s.store.rows[first.owner.generation].state.Placeholder? ==> first.state.Placeholder?)
    && CurrentReleased !in FactsOf(s.log) && CurrentCleared !in FactsOf(s.log)
    && forall t :: t in s.workers ==> ShowsFirst(s.workers[t].record, first)
  }

  ghost predicate ShowsFirst(r: Reservation, first: Reservation) {
    r.id == first.id && r.owner == first.owner && (r.state.Placeholder? ==> first.state.Placeholder?)
  }

  ghost predicate Ending(s: State, first: Reservation) {
    Gone(s.cfg, s.authority, first) || StillCurrent(s, first)
  }

  lemma NoQuotaStep(p: Port, step: StepName)
    requires AtStep(p, step) && step != ReserveQuota && step != ReleasePreviousQuota
    ensures !p.Reserve? && !p.Confirm? && !p.SaveReservation? && !p.ReleasePrevious? && !p.SavePrevious?
  {
  }

  /** On such a path the authority only releases, and only what the worker was shown. */
  lemma AuthorityOnlyReleases(cfg: Config, books: map<string, Reservation>, w: Worker, p: Port, r: Reply, id: string)
    requires Argued(cfg, w, p) && !p.Reserve? && !p.Confirm? && !p.ReleasePrevious?
    ensures var books' := AuthorityEffect(books, p, r);
            && (SettledIn(books, id) ==> SettledIn(books', id))
            && (p.ReleaseCurrent? && w.record.id == id ==> SettledIn(books', id))
  {
  }

  /** What a call teaches of the reservation. */
  lemma TaughtOfCurrent(cfg: Config, w: Worker, p: Port, r: Reply)
    requires Argued(cfg, w, p)
    ensures CurrentReleased in Gain(cfg, p, r) ==> p.ReleaseCurrent? && !r.failed
    ensures CurrentCleared in Gain(cfg, p, r) ==> p.SaveReleased? && (CurrentReleased in w.facts || Cancellable(cfg, w.record))
  {
  }

  /** While nobody has released it and it cannot be cancelled, a call leaves the row on top. */
  lemma RowOfCurrent(cfg: Config, store: Store, w: Worker, p: Port, first: Reservation)
    requires Argued(cfg, w, p) && !p.SaveReservation? && !p.SavePrevious? && CurrentReleased !in w.facts && !Cancellable(cfg, w.record)
    requires OnTop(store.rows, cfg.id.generation, true, first) && ShowsFirst(w.record, first)
    requires store.rows[first.owner.generation].state.Placeholder? ==> first.state.Placeholder?
    ensures var rows' := StoreEffect(store, p).rows;
            && OnTop(rows', cfg.id.generation, true, first)
            && (rows'[first.owner.generation].state.Placeholder? ==> first.state.Placeholder?)
  {
    if p.SaveReleased? {
      TopStays(store.rows, cfg.id.generation, true, first, p.r);
    }
  }

  lemma CallKeepsCurrent(s: State, t: Token, p: Port, r: Reply, first: Reservation)
    requires StillCurrent(s, first) && MayCall(s, t, p, r) && s.workers[t].facts <= FactsOf(s.log) && !Cancellable(s.cfg, first)
    requires !p.SaveReservation? && !p.SavePrevious? && !(p.ReleaseCurrent? && (!r.failed || r.applied))
    ensures StillCurrent(DoCall(s, t, p, r), first)
  {
    var s', w := DoCall(s, t, p, r), s.workers[t];
    FactsAppend(s.log, s'.log[|s.log|], t);
    TaughtOfCurrent(s.cfg, w, p, r);
    RowOfCurrent(s.cfg, s.store, w, p, first);
  }

  lemma CallKeepsEnding(s: State, t: Token, p: Port, r: Reply, first: Reservation)
    requires Informed(s, t) && Ending(s, first) && Ends(s.cfg) && MayCall(s, t, p, r)
    ensures Ending(DoCall(s, t, p, r), first)
  {
    NoQuotaStep(p, s.workers[t].step);
    AuthorityOnlyReleases(s.cfg, s.authority, s.workers[t], p, r, first.id);
    if !Gone(s.cfg, DoCall(s, t, p, r).authority, first) {
      CallKeepsCurrent(s, t, p, r, first);
    }
  }

  lemma LoadKeepsEnding(s: State, t: Token, first: Reservation)
    requires Ending(s, first) && first.id != "" && Speaks(s, Load(t))
    ensures Ending(DoLoad(s, t), first)
  {
    if !Gone(s.cfg, s.authority, first) {
      FactsAppend(s.log, LoadEntry(s, t), t);
      TopIsShown(s.store.rows, s.cfg.id.generation, true, first);
    }
  }

  lemma QuietKeepsEnding(s: State, s': State, first: Reservation)
    requires Ending(s, first) && Quiet(s, s')
    ensures Ending(s', first)
  {
    forall t | t in s'.workers ensures s'.workers[t].record == s.workers[t].record {
      assert SameKnowledge(s.workers[t], s'.workers[t]);
    }
  }

  lemma StepKeepsEnding(s: State, m: Move, first: Reservation)
    requires Inv(s) && Ending(s, first) && Ends(s.cfg) && first.id != ""
    ensures Ending(Step(s, m), first)
  {
    if !Speaks(s, m) {
      OtherMovesAreQuiet(s, m);
      QuietKeepsEnding(s, Step(s, m), first);
    } else if m.Load? {
      LoadKeepsEnding(s, m.token, first);
    } else {
      WorkersInformed(s, m.token);
      CallKeepsEnding(s, m.token, m.port, m.reply, first);
    }
  }

  lemma {:induction false} RunKeepsEnding(s: State, moves: seq<Move>)
    requires Init(s) && Ends(s.cfg) && Shown(s.cfg, s.store.rows).id != ""
    ensures Ending(Run(s, moves), Shown(s.cfg, s.store.rows))
  {
    if moves == [] {
      ShownIsTop(s.cfg, s.store.rows, s.cfg.id.generation, true);
      TopIsShown(s.store.rows, s.cfg.id.generation, true, Shown(s.cfg, s.store.rows));
    } else {
      var before := moves[..|moves| - 1];
      RunKeepsEnding(s, before);
      RunKeepsInv(s, before);
      StepKeepsEnding(Run(s, before), moves[|moves| - 1], Shown(s.cfg, s.store.rows));
    }
  }

  lemma EndClears(cfg: Config, log: seq<Entry>)
    requires GoodPath(cfg.path) && Ends(cfg) && EarlierLeft(cfg, Complete, log)
    ensures CurrentCleared in FactsOf(log)
  {
    IndexOf(cfg.path, |cfg.path| - 1);
    var i := StepIndex(cfg.path, ReleaseQuota);
    assert cfg.path[i] == ReleaseQuota;
    assert LeftBy(cfg, log, ReleaseQuota);
    LeftIsLearned(cfg, log, ReleaseQuota);
  }

  /** A stop or delete that succeeded has given up the reservation it was shown, or has cancelled a placeholder. */
  lemma ShownIsGone(s: State, moves: seq<Move>)
    requires Init(s) && Ends(s.cfg) && Run(s, moves).op.phase.Succeeded?
    ensures Gone(s.cfg, Run(s, moves).authority, Shown(s.cfg, s.store.rows))
  {
    RunKeepsInv(s, moves);
    RunKeepsBooks(s, moves);
    if Shown(s.cfg, s.store.rows).id != "" {
      RunKeepsEnding(s, moves);
      EndClears(s.cfg, Run(s, moves).log);
    }
  }

  /** All that the authority holds for the service is the reservation that a load shows, and a delete will not merely cancel that. */
  ghost predicate SoleCurrent(s: State) {
    var first := Shown(s.cfg, s.store.rows);
    forall k :: ServiceHolds(s.cfg, s.authority, k) ==> k == first.id && !Cancellable(s.cfg, first)
  }

  lemma StepOnlyReleases(s: State, m: Move, k: string)
    requires Inv(s) && Ends(s.cfg)
    ensures ServiceHolds(s.cfg, Step(s, m).authority, k) ==> ServiceHolds(s.cfg, s.authority, k)
  {
    if !Speaks(s, m) {
      OtherMovesAreQuiet(s, m);
    } else if m.Call? && (!m.reply.failed || m.reply.applied) {
      WorkersInformed(s, m.token);
      NoQuotaStep(m.port, s.workers[m.token].step);
      NothingTaken(s.cfg, s.authority, m.port, m.reply, k);
    }
  }

  lemma NothingTaken(cfg: Config, books: map<string, Reservation>, p: Port, r: Reply, k: string)
    requires !p.Reserve? && !p.Confirm?
    ensures ServiceHolds(cfg, AuthorityEffect(books, p, r), k) ==> ServiceHolds(cfg, books, k)
  {
  }

  /** On such a path the authority comes to hold nothing it did not hold. */
  lemma {:induction false} RunOnlyReleases(s: State, moves: seq<Move>, k: string)
    requires Init(s) && Ends(s.cfg)
    ensures ServiceHolds(s.cfg, Run(s, moves).authority, k) ==> ServiceHolds(s.cfg, s.authority, k)
  {
    if moves != [] {
      RunOnlyReleases(s, moves[..|moves| - 1], k);
      RunKeepsInv(s, moves[..|moves| - 1]);
      StepOnlyReleases(Run(s, moves[..|moves| - 1]), moves[|moves| - 1], k);
    }
  }

  /** No leak, the one half: where the shown reservation is all there is, a succeeded stop or delete leaves nothing behind. */
  lemma SoleMeansNoLeak(s: State, moves: seq<Move>)
    requires Init(s) && Ends(s.cfg) && SoleCurrent(s) && Run(s, moves).op.phase.Succeeded?
    ensures forall k :: !ServiceHolds(s.cfg, Run(s, moves).authority, k)
  {
    ShownIsGone(s, moves);
    forall k ensures !ServiceHolds(s.cfg, Run(s, moves).authority, k) {
      RunOnlyReleases(s, moves, k);
    }
  }
}
