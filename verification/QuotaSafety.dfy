/** The quota gate over every run of the runner protocol: reservations are neither repeated nor presumed. */
module QuotaSafety {
  import opened OperationSteps
  import opened RunnerProtocol
  import opened RunnerSafety

  /** On a path that reserves quota: a learned or persisted confirmation is the authority's. Workers were shown existing rows. */
  ghost predicate Books(s: State) {
    && BooksKept(s)
    && (ReserveQuota in s.cfg.path && QuotaConfirmed in FactsOf(s.log) ==> ConfirmedAtAuthority(s))
    && AllKnow(s.cfg, s.store.rows, s.workers)
    && !(ReserveQuota in s.cfg.path && ReleaseQuota in s.cfg.path)
  }

  /** The reservation is of an existing row; the id of an earlier row does not change. */
  ghost predicate KnowsRow(cfg: Config, rows: map<int, Reservation>, r: Reservation) {
    r.id != "" ==> HasRow(rows, r) && (r.owner.generation != cfg.id.generation ==> rows[r.owner.generation].id == r.id)
  }

  ghost predicate KnowsRows(cfg: Config, rows: map<int, Reservation>, w: Worker) {
    && KnowsRow(cfg, rows, w.record) && KnowsRow(cfg, rows, w.previous)
    && (w.previous.id != "" ==> w.previous.owner.generation < cfg.id.generation)
  }

  ghost predicate AllKnow(cfg: Config, rows: map<int, Reservation>, workers: map<Token, Worker>) {
    forall t :: t in workers ==> KnowsRows(cfg, rows, workers[t])
  }

  /** The rows are the same but for the state of one, or the own row. */
  ghost predicate SameRows(cfg: Config, rows: map<int, Reservation>, rows': map<int, Reservation>) {
    && rows'.Keys == rows.Keys
    && forall g :: g in rows ==> rows'[g].owner == rows[g].owner && (g != cfg.id.generation ==> rows'[g].id == rows[g].id)
  }

  /** The shown row is a row that qualifies, and none above it does. */
  lemma {:induction false} NewestIs(rows: map<int, Reservation>, g: int, pendingToo: bool)
    ensures var r := Newest(rows, g, pendingToo);
            r == NoReservation() || exists k :: 1 <= k <= g && k in rows && r == rows[k] && IsNewest(rows, g, pendingToo, k)
    ensures Newest(rows, g, pendingToo) == NoReservation() ==> forall k :: 1 <= k <= g && k in rows ==> !Qualifies(rows[k], pendingToo) || rows[k] == NoReservation()
    decreases if g < 0 then 0 else g
  {
    if g >= 1 && !(g in rows && Qualifies(rows[g], pendingToo)) {
      NewestIs(rows, g - 1, pendingToo);
      var r := Newest(rows, g - 1, pendingToo);
      if r != NoReservation() {
        var k :| 1 <= k <= g - 1 && k in rows && r == rows[k] && IsNewest(rows, g - 1, pendingToo, k);
        assert IsNewest(rows, g, pendingToo, k);
      }
    } else if g >= 1 {
      assert IsNewest(rows, g, pendingToo, g);
    }
  }

  ghost predicate Qualifies(r: Reservation, pendingToo: bool) {
    Granted(r.state) || (pendingToo && r.state.Placeholder?)
  }

  ghost predicate IsNewest(rows: map<int, Reservation>, g: int, pendingToo: bool, k: int) {
    && k in rows && k <= g && Qualifies(rows[k], pendingToo)
    && forall j :: k < j <= g && j in rows ==> !Qualifies(rows[j], pendingToo)
  }

  /** The authority's answer to one call leaves this operation's confirmed reservation alone. */
  lemma AuthorityKeeps(cfg: Config, held: bool, store: Store, books: map<string, Reservation>, p: Port, r: Reply)
    requires Fits(held, store, books, p, r)
    requires !r.failed || r.applied
    requires p.ReleasePrevious? && p.r.id in books ==> books[p.r.id].owner != cfg.id
    requires !p.ReleaseCurrent?
    ensures var books' := AuthorityEffect(books, p, r);
            && (ConfirmedIn(books, cfg.id) ==> ConfirmedIn(books', cfg.id))
            && (p.Confirm? && p.r.owner == cfg.id ==> ConfirmedIn(books', cfg.id))
  {
    var books' := AuthorityEffect(books, p, r);
    if ConfirmedIn(books, cfg.id) {
      var k :| k in books && books[k].owner == cfg.id && books[k].state.Confirmed?;
      assert k in books' && books'[k].owner == cfg.id && books'[k].state.Confirmed?;
    }
    if p.Confirm? {
      assert p.r.id in books' && books'[p.r.id].owner == p.r.owner && books'[p.r.id].state.Confirmed?;
    }
  }

  ghost predicate Claims(cfg: Config, rows: map<int, Reservation>, known: bool) {
    known || OwnConfirmed(cfg, rows)
  }

  /** What one legal call does to the rows: at most one row changes, and an earlier row keeps its id. */
  lemma CallOnRows(cfg: Config, store: Store, w: Worker, p: Port)
    requires Legal(cfg, w, p) && KnowsRows(cfg, store.rows, w) && RowsKept(cfg, store.rows)
    ensures var rows' := StoreEffect(store, p).rows;
            && RowsKept(cfg, rows') && SameRows(cfg, store.rows, rows')
            && (w.step != ReleaseQuota && OwnConfirmed(cfg, rows') ==> OwnConfirmed(cfg, store.rows) || QuotaConfirmed in w.facts)
  {
    if p.SaveReservation? || p.SavePrevious? || p.SaveReleased? {
      RecordingKeeps(cfg, store.rows, p.r);
    }
  }

  /** Recording a reservation that is the operation's own, or has the id of its row. */
  lemma RecordingKeeps(cfg: Config, rows: map<int, Reservation>, x: Reservation)
    requires RowsKept(cfg, rows) && x.id != "" && (x.owner == cfg.id || KnowsRow(cfg, rows, x))
    ensures RowsKept(cfg, Recorded(rows, x)) && SameRows(cfg, rows, Recorded(rows, x))
  {
    if HasRow(rows, x) {
      assert RowKept(cfg, x.owner.generation, rows[x.owner.generation]);
    }
  }

  lemma AllKeepKnown(cfg: Config, rows: map<int, Reservation>, rows': map<int, Reservation>, workers: map<Token, Worker>, workers': map<Token, Worker>)
    requires AllKnow(cfg, rows, workers) && SameRows(cfg, rows, rows') && workers'.Keys == workers.Keys
    requires forall u :: u in workers ==> workers'[u].record == workers[u].record && workers'[u].previous == workers[u].previous
    ensures AllKnow(cfg, rows', workers')
  {
    forall u | u in workers' ensures KnowsRows(cfg, rows', workers'[u]) {
      assert KnowsRows(cfg, rows, workers[u]);
    }
  }

  /** What one legal call does to the books: earlier rows' reservations stay others', and the empty id names nothing. */
  lemma CallOnBooks(cfg: Config, held: bool, store: Store, books: map<string, Reservation>, w: Worker, p: Port, r: Reply)
    requires Argued(cfg, w, p) && Fits(held, store, books, p, r) && (!r.failed || r.applied)
    requires RowsKept(cfg, store.rows) && EarlierNotOwn(cfg, store.rows, books) && "" !in books
    ensures var books' := AuthorityEffect(books, p, r); EarlierNotOwn(cfg, store.rows, books') && "" !in books'
  {
    var books' := AuthorityEffect(books, p, r);
    forall g | g in store.rows && g != cfg.id.generation && store.rows[g].id in books' ensures books'[store.rows[g].id].owner != cfg.id {
      assert RowKept(cfg, g, store.rows[g]);
    }
  }

  lemma SameRowsNotOwn(cfg: Config, rows: map<int, Reservation>, rows': map<int, Reservation>, books: map<string, Reservation>)
    requires SameRows(cfg, rows, rows') && EarlierNotOwn(cfg, rows, books)
    ensures EarlierNotOwn(cfg, rows', books)
  {
  }

  lemma CallKeepsClaims(cfg: Config, held: bool, store: Store, books: map<string, Reservation>, w: Worker, p: Port, r: Reply, known: bool)
    requires Legal(cfg, w, p) && Fits(held, store, books, p, r) && w.step != ReleaseQuota && KnowsRows(cfg, store.rows, w)
    requires RowsKept(cfg, store.rows) && EarlierNotOwn(cfg, store.rows, books)
    requires Claims(cfg, store.rows, known) ==> ConfirmedIn(books, cfg.id)
    requires QuotaConfirmed in w.facts ==> known
    ensures var effective := !r.failed || r.applied;
            var books' := if effective then AuthorityEffect(books, p, r) else books;
            var store' := if effective then StoreEffect(store, p) else store;
            Claims(cfg, store'.rows, known || QuotaConfirmed in Gain(cfg, p, r)) ==> ConfirmedIn(books', cfg.id)
  {
    CallOnRows(cfg, store, w, p);
    if QuotaConfirmed in Gain(cfg, p, r) {
      TaughtConfirmed(cfg, held, store, books, p, r);
    }
    NotReleasing(p, w.step);
    if !r.failed || r.applied {
      AuthorityKeeps(cfg, held, store, books, p, r);
    }
  }

  lemma NotReleasing(p: Port, step: StepName)
    requires AtStep(p, step) && step != ReleaseQuota
    ensures !p.ReleaseCurrent?
  {
  }

  /** A confirmation is learned from the authority's books, or by confirming. */
  lemma TaughtConfirmed(cfg: Config, held: bool, store: Store, books: map<string, Reservation>, p: Port, r: Reply)
    requires Fits(held, store, books, p, r) && QuotaConfirmed in Gain(cfg, p, r)
    ensures !r.failed && (ConfirmedIn(books, cfg.id) || (p.Confirm? && p.r.owner == cfg.id))
  {
  }

  /** The rows and the books after a legal call. */
  lemma CallKeepsRecords(cfg: Config, held: bool, store: Store, books: map<string, Reservation>, w: Worker, p: Port, r: Reply)
    requires Legal(cfg, w, p) && Fits(held, store, books, p, r) && KnowsRows(cfg, store.rows, w)
    requires RowsKept(cfg, store.rows) && EarlierNotOwn(cfg, store.rows, books) && "" !in books
    ensures var effective := !r.failed || r.applied;
            var books' := if effective then AuthorityEffect(books, p, r) else books;
            var rows' := if effective then StoreEffect(store, p).rows else store.rows;
            RowsKept(cfg, rows') && SameRows(cfg, store.rows, rows') && EarlierNotOwn(cfg, rows', books') && "" !in books'
  {
    CallOnRows(cfg, store, w, p);
    if !r.failed || r.applied {
      CallOnBooks(cfg, held, store, books, w, p, r);
      SameRowsNotOwn(cfg, store.rows, StoreEffect(store, p).rows, AuthorityEffect(books, p, r));
    }
  }

  lemma CallKeepsKnown(s: State, t: Token, p: Port, r: Reply)
    requires AllKnow(s.cfg, s.store.rows, s.workers) && MayCall(s, t, p, r) && SameRows(s.cfg, s.store.rows, DoCall(s, t, p, r).store.rows)
    ensures AllKnow(s.cfg, DoCall(s, t, p, r).store.rows, DoCall(s, t, p, r).workers)
  {
    AllKeepKnown(s.cfg, s.store.rows, DoCall(s, t, p, r).store.rows, s.workers, DoCall(s, t, p, r).workers);
  }

  /** What is learned or recorded as confirmed stays the authority's. */
  lemma CallKeepsConfirmed(s: State, t: Token, p: Port, r: Reply)
    requires Books(s) && MayCall(s, t, p, r) && ReserveQuota in s.cfg.path
    requires s.workers[t].facts <= FactsOf(s.log) && s.workers[t].step in s.cfg.path
    ensures var s' := DoCall(s, t, p, r);
            Claims(s.cfg, s'.store.rows, QuotaConfirmed in FactsOf(s'.log)) ==> ConfirmedIn(s'.authority, s.cfg.id)
  {
    var s', w := DoCall(s, t, p, r), s.workers[t];
    FactsAppend(s.log, s'.log[|s.log|], t);
    CallKeepsClaims(s.cfg, Held(s, t), s.store, s.authority, w, p, r, QuotaConfirmed in FactsOf(s.log));
  }

  lemma CallKeepsBooks(s: State, t: Token, p: Port, r: Reply)
    requires Books(s) && MayCall(s, t, p, r)
    requires s.workers[t].facts <= FactsOf(s.log) && s.workers[t].step in s.cfg.path
    ensures Books(DoCall(s, t, p, r))
  {
    CallKeepsRecords(s.cfg, Held(s, t), s.store, s.authority, s.workers[t], p, r);
    CallKeepsKnown(s, t, p, r);
    if ReserveQuota in s.cfg.path {
      CallKeepsConfirmed(s, t, p, r);
    }
  }

  /** What a load shows are rows of the store. */
  lemma ShownAreRows(cfg: Config, rows: map<int, Reservation>)
    requires RowsKept(cfg, rows)
    ensures KnowsRow(cfg, rows, Shown(cfg, rows)) && KnowsRow(cfg, rows, ShownPrevious(cfg, rows))
    ensures ShownPrevious(cfg, rows).id != "" ==> ShownPrevious(cfg, rows).owner.generation < cfg.id.generation
    ensures ValidReservation(cfg, Shown(cfg, rows)) && Shown(cfg, rows).state.Confirmed? ==> OwnConfirmed(cfg, rows)
  {
    NewestIs(rows, cfg.id.generation, true);
    NewestIs(rows, cfg.id.generation - 1, false);
  }

  lemma LoadKeepsBooks(s: State, t: Token)
    requires Books(s) && Speaks(s, Load(t))
    ensures Books(DoLoad(s, t))
  {
    FactsAppend(s.log, LoadEntry(s, t), t);
    ShownAreRows(s.cfg, s.store.rows);
  }

  lemma QuietKeepsBooks(s: State, s': State)
    requires Books(s) && Quiet(s, s')
    ensures Books(s')
  {
    forall t | t in s'.workers ensures KnowsRows(s.cfg, s'.store.rows, s'.workers[t]) {
      assert SameKnowledge(s.workers[t], s'.workers[t]);
    }
  }

  lemma StepKeepsBooks(s: State, m: Move)
    requires Inv(s) && Books(s)
    ensures Books(Step(s, m))
  {
    if !Speaks(s, m) {
      OtherMovesAreQuiet(s, m);
      QuietKeepsBooks(s, Step(s, m));
    } else if m.Load? {
      LoadKeepsBooks(s, m.token);
    } else {
      FactsByAreFacts(s.log, m.token);
      CallKeepsBooks(s, m.token, m.port, m.reply);
    }
  }

  lemma {:induction false} RunKeepsBooks(s: State, moves: seq<Move>)
    requires Init(s)
    ensures Books(Run(s, moves))
  {
    if moves != [] {
      RunKeepsBooks(s, moves[..|moves| - 1]);
      RunKeepsInv(s, moves[..|moves| - 1]);
      StepKeepsBooks(Run(s, moves[..|moves| - 1]), moves[|moves| - 1]);
    }
  }

  /** Once an operation with its own quota is past the quota step, the authority holds its confirmed reservation. */
  lemma PastQuotaMeansConfirmed(s: State, moves: seq<Move>)
    requires Init(s) && QuotaOwned(s.cfg) && ReserveQuota in s.cfg.path
    requires !Run(s, moves).op.phase.Failed?
    requires StepIndex(s.cfg.path, ReserveQuota) < StepIndex(s.cfg.path, Run(s, moves).op.step)
    ensures ConfirmedAtAuthority(Run(s, moves))
  {
    RunKeepsInv(s, moves);
    RunKeepsBooks(s, moves);
    var end := Run(s, moves);
    assert s.cfg.path[StepIndex(s.cfg.path, ReserveQuota)] == ReserveQuota;
    assert LeftBy(s.cfg, end.log, ReserveQuota);
    LeftIsLearned(s.cfg, end.log, ReserveQuota);
  }

  // ---- The record of the confirmation ----

  /** Who holds the lease at a confirmed row knows of the confirmation. */
  ghost predicate HolderKnows(s: State) {
    forall t :: t in s.workers && Held(s, t) ==> QuotaConfirmed in s.workers[t].facts
  }

  /** What was recorded as confirmed is recorded so still, and the holder of the lease knows. */
  ghost predicate Recording(s: State) {
    QuotaOwned(s.cfg) && ReserveQuota in s.cfg.path ==>
      && (QuotaKept in FactsOf(s.log) ==> OwnConfirmed(s.cfg, s.store.rows))
      && (OwnConfirmed(s.cfg, s.store.rows) ==> HolderKnows(s))
  }

  /** A worker that holds the lease after a quiet move held it before: leases go to new tokens. */
  lemma HoldersStay(s: State, m: Move, t: Token)
    requires Placed(s) && !Speaks(s, m) && t in s.workers && Held(Step(s, m), t)
    ensures Held(s, t)
  {
    match m
    case Claim(_) =>
    case Advance(_, _, _) =>
    case Fail(_) =>
    case Retry(_, _, _) =>
    case _ =>
  }

  lemma QuietKeepsRecording(s: State, m: Move)
    requires Placed(s) && Recording(s) && !Speaks(s, m)
    ensures Recording(Step(s, m))
  {
    var s' := Step(s, m);
    OtherMovesAreQuiet(s, m);
    if QuotaOwned(s.cfg) && ReserveQuota in s.cfg.path && OwnConfirmed(s.cfg, s.store.rows) {
      forall t | t in s'.workers && Held(s', t) ensures QuotaConfirmed in s'.workers[t].facts {
        HoldersStay(s, m, t);
        assert SameKnowledge(s.workers[t], s'.workers[t]);
      }
    }
  }

  /** A load shows the own row when it is confirmed. */
  lemma ConfirmedIsShown(cfg: Config, store: Store)
    requires RowsKept(cfg, store.rows) && OwnConfirmed(cfg, store.rows) && QuotaOwned(cfg) && ReserveQuota in cfg.path
    ensures {QuotaConfirmed, QuotaKept} <= LoadFacts(cfg, store)
  {
    assert RowKept(cfg, cfg.id.generation, store.rows[cfg.id.generation]);
    assert Shown(cfg, store.rows) == store.rows[cfg.id.generation];
  }

  lemma LoadKeepsRecording(s: State, t: Token)
    requires RowsKept(s.cfg, s.store.rows) && Recording(s) && Speaks(s, Load(t))
    ensures Recording(DoLoad(s, t))
  {
    FactsAppend(s.log, LoadEntry(s, t), t);
    ShownAreRows(s.cfg, s.store.rows);
    if QuotaOwned(s.cfg) && ReserveQuota in s.cfg.path && OwnConfirmed(s.cfg, s.store.rows) {
      ConfirmedIsShown(s.cfg, s.store);
    }
  }

  /** A call that takes effect changes the own row only by recording, at the quota step and under the lease. */
  lemma OwnRowWritten(cfg: Config, held: bool, store: Store, books: map<string, Reservation>, w: Worker, p: Port, r: Reply)
    requires Legal(cfg, w, p) && Fits(held, store, books, p, r) && (!r.failed || r.applied)
    requires RowsKept(cfg, store.rows) && KnowsRows(cfg, store.rows, w) && w.step != ReleaseQuota
    ensures var rows' := StoreEffect(store, p).rows;
            if p.SaveReservation? then held && cfg.id.generation in rows' && rows'[cfg.id.generation] == p.r
            else OwnConfirmed(cfg, rows') == OwnConfirmed(cfg, store.rows)
  {
    if p.SavePrevious? {
      assert p.r.owner.generation != cfg.id.generation;
    }
  }

  lemma CallKeepsRow(cfg: Config, held: bool, store: Store, books: map<string, Reservation>, w: Worker, p: Port, r: Reply)
    requires Legal(cfg, w, p) && Fits(held, store, books, p, r)
    requires RowsKept(cfg, store.rows) && KnowsRows(cfg, store.rows, w) && w.step != ReleaseQuota
    requires OwnConfirmed(cfg, store.rows) && held ==> QuotaConfirmed in w.facts
    ensures var rows' := if !r.failed || r.applied then StoreEffect(store, p).rows else store.rows;
            && (OwnConfirmed(cfg, store.rows) || QuotaKept in Gain(cfg, p, r) ==> OwnConfirmed(cfg, rows'))
            && (OwnConfirmed(cfg, rows') ==> OwnConfirmed(cfg, store.rows) || (held && QuotaConfirmed in w.facts))
  {
    assert QuotaKept in Gain(cfg, p, r) ==> Teaches(cfg, p, r, QuotaKept);
    if !r.failed || r.applied {
      OwnRowWritten(cfg, held, store, books, w, p, r);
    }
  }

  lemma CallKeepsRecording(s: State, t: Token, p: Port, r: Reply)
    requires Books(s) && Recording(s) && MayCall(s, t, p, r) && s.workers[t].step in s.cfg.path
    ensures Recording(DoCall(s, t, p, r))
  {
    if QuotaOwned(s.cfg) && ReserveQuota in s.cfg.path {
      var s' := DoCall(s, t, p, r);
      FactsAppend(s.log, s'.log[|s.log|], t);
      CallKeepsRow(s.cfg, Held(s, t), s.store, s.authority, s.workers[t], p, r);
    }
  }

  lemma StepKeepsRecording(s: State, m: Move)
    requires Inv(s) && Books(s) && Recording(s)
    ensures Recording(Step(s, m))
  {
    if !Speaks(s, m) {
      QuietKeepsRecording(s, m);
    } else if m.Load? {
      LoadKeepsRecording(s, m.token);
    } else {
      CallKeepsRecording(s, m.token, m.port, m.reply);
    }
  }

  lemma {:induction false} RunKeepsRecording(s: State, moves: seq<Move>)
    requires Init(s)
    ensures Recording(Run(s, moves))
  {
    if moves != [] {
      var before := moves[..|moves| - 1];
      RunKeepsRecording(s, before);
      RunKeepsInv(s, before);
      RunKeepsBooks(s, before);
      StepKeepsRecording(Run(s, before), moves[|moves| - 1]);
    }
  }

  /** Once an operation with its own quota is past the quota step, its own row says so: it is recorded as confirmed. */
  lemma PastQuotaMeansRecorded(s: State, moves: seq<Move>)
    requires Init(s) && QuotaOwned(s.cfg) && ReserveQuota in s.cfg.path
    requires !Run(s, moves).op.phase.Failed?
    requires StepIndex(s.cfg.path, ReserveQuota) < StepIndex(s.cfg.path, Run(s, moves).op.step)
    ensures var rows, g := Run(s, moves).store.rows, s.cfg.id.generation;
            g in rows && rows[g].owner == s.cfg.id && rows[g].state == Confirmed
  {
    RunKeepsInv(s, moves);
    RunKeepsBooks(s, moves);
    RunKeepsRecording(s, moves);
    var end := Run(s, moves);
    assert s.cfg.path[StepIndex(s.cfg.path, ReserveQuota)] == ReserveQuota;
    assert LeftBy(s.cfg, end.log, ReserveQuota);
    LeftIsLearned(s.cfg, end.log, ReserveQuota);
    assert OwnConfirmed(s.cfg, end.store.rows);
    assert RowKept(s.cfg, s.cfg.id.generation, end.store.rows[s.cfg.id.generation]);
  }

  // ---- When a reservation is requested ----

  /** The worker's load showed this reservation. */
  ghost predicate LoadedRecord(log: seq<Entry>, t: Token, record: Reservation) {
    exists i :: 0 <= i < |log| && log[i].token == t && log[i].port.LoadOperation? && log[i].reply.reservation == record
  }

  /** The worker works on the reservation it loaded, or on one its lookup or its own reserving brought. */
  ghost predicate Given(log: seq<Entry>, t: Token, r: Reservation) {
    LoadedRecord(log, t, r) || exists i :: 0 <= i < |log| && log[i].token == t && Brings(log[i], r)
  }

  ghost predicate Brings(e: Entry, r: Reservation) {
    (e.port.GetReservation? || e.port.Reserve?) && !e.reply.failed && e.reply.reservation == r
  }

  /** A lookup is of the loaded record, which is open; a reservation is requested for the reservation at hand, on an open record. */
  ghost predicate AskedFor(log: seq<Entry>, k: nat) {
    k < |log| ==>
      && (log[k].port.GetReservation? ==> exists record :: LoadedRecord(log[..k], log[k].token, record) && Open(record) && log[k].port.key == record.id)
      && (log[k].port.Reserve? ==>
            && (exists record :: LoadedRecord(log[..k], log[k].token, record) && Open(record))
            && Open(log[k].port.r) && Given(log[..k], log[k].token, log[k].port.r))
  }

  ghost predicate Loads(s: State) {
    && (forall t :: t in s.workers ==> LoadedRecord(s.log, t, s.workers[t].record) && Given(s.log, t, s.workers[t].current))
    && AllAsked(s.log) && OneLoad(s)
  }

  ghost predicate AllAsked(log: seq<Entry>) {
    forall k: nat {:trigger AskedFor(log, k)} :: AskedFor(log, k)
  }

  /** Loads of a worker show one record, and only workers have loaded. */
  ghost predicate OneLoad(s: State) {
    forall i :: 0 <= i < |s.log| ==> LoadIs(s.log[i], s.workers)
  }

  ghost predicate LoadIs(e: Entry, workers: map<Token, Worker>) {
    e.token in workers && (e.port.LoadOperation? ==> e.reply.reservation == workers[e.token].record)
  }

  lemma LoadedAppend(log: seq<Entry>, e: Entry, t: Token, record: Reservation)
    ensures LoadedRecord(log, t, record) ==> LoadedRecord(log + [e], t, record)
    ensures e.token == t && e.port.LoadOperation? && e.reply.reservation == record ==> LoadedRecord(log + [e], t, record)
  {
    if LoadedRecord(log, t, record) {
      var i :| 0 <= i < |log| && log[i].token == t && log[i].port.LoadOperation? && log[i].reply.reservation == record;
      assert (log + [e])[i] == log[i];
    }
    assert (log + [e])[|log|] == e;
  }

  lemma GivenAppend(log: seq<Entry>, e: Entry, t: Token, r: Reservation)
    ensures Given(log, t, r) ==> Given(log + [e], t, r)
    ensures e.token == t && Brings(e, r) ==> Given(log + [e], t, r)
  {
    LoadedAppend(log, e, t, r);
    if i :| 0 <= i < |log| && log[i].token == t && Brings(log[i], r) {
      assert (log + [e])[i] == log[i];
    }
    assert (log + [e])[|log|] == e;
  }

  lemma AskedAppend(log: seq<Entry>, e: Entry)
    requires AllAsked(log)
    requires e.port.GetReservation? ==> exists record :: LoadedRecord(log, e.token, record) && Open(record) && e.port.key == record.id
    requires e.port.Reserve? ==> (exists record :: LoadedRecord(log, e.token, record) && Open(record)) && Open(e.port.r) && Given(log, e.token, e.port.r)
    ensures AllAsked(log + [e])
  {
    var log' := log + [e];
    forall k: nat ensures AskedFor(log', k) {
      assert AskedFor(log, k);
      if k <= |log| {
        assert log'[..k] == log[..k];
        assert k == |log| ==> log[..k] == log && log'[k] == e;
      }
    }
  }

  lemma LegalIsAsked(cfg: Config, log: seq<Entry>, w: Worker, t: Token, p: Port)
    requires Argued(cfg, w, p) && LoadedRecord(log, t, w.record) && Given(log, t, w.current)
    ensures p.GetReservation? ==> exists record :: LoadedRecord(log, t, record) && Open(record) && p.key == record.id
    ensures p.Reserve? ==> (exists record :: LoadedRecord(log, t, record) && Open(record)) && Open(p.r) && Given(log, t, p.r)
  {
  }

  lemma CallerStaysGiven(cfg: Config, log: seq<Entry>, w: Worker, p: Port, r: Reply, e: Entry)
    requires LoadedRecord(log, e.token, w.record) && Given(log, e.token, w.current) && e.port == p && e.reply == r
    ensures var w' := Learned(cfg, w, p, r); LoadedRecord(log + [e], e.token, w'.record) && Given(log + [e], e.token, w'.current)
  {
    var w' := Learned(cfg, w, p, r);
    LoadedAppend(log, e, e.token, w'.record);
    GivenAppend(log, e, e.token, w'.current);
  }

  lemma CallKeepsOneLoad(s: State, t: Token, p: Port, r: Reply)
    requires OneLoad(s) && MayCall(s, t, p, r)
    ensures OneLoad(DoCall(s, t, p, r))
  {
    var s' := DoCall(s, t, p, r);
    NoLoadPort(p, s.workers[t].step);
    forall i | 0 <= i < |s'.log| ensures LoadIs(s'.log[i], s'.workers) {
      assert i < |s.log| ==> LoadIs(s.log[i], s.workers);
    }
  }

  lemma CallKeepsLoads(s: State, t: Token, p: Port, r: Reply)
    requires Loads(s) && MayCall(s, t, p, r)
    ensures Loads(DoCall(s, t, p, r))
  {
    var s', w := DoCall(s, t, p, r), s.workers[t];
    var e := Entry(t, w.step, p, r, Gain(s.cfg, p, r), Held(s, t));
    LegalIsAsked(s.cfg, s.log, w, t, p);
    AskedAppend(s.log, e);
    CallerStaysGiven(s.cfg, s.log, w, p, r, e);
    CallKeepsOneLoad(s, t, p, r);
    forall u | u in s'.workers && u != t ensures LoadedRecord(s'.log, u, s'.workers[u].record) && Given(s'.log, u, s'.workers[u].current) {
      LoadedAppend(s.log, e, u, s'.workers[u].record);
      GivenAppend(s.log, e, u, s'.workers[u].current);
    }
  }

  lemma LoadKeepsLoads(s: State, t: Token)
    requires Loads(s) && Speaks(s, Load(t))
    ensures Loads(DoLoad(s, t))
  {
    var s', e := DoLoad(s, t), LoadEntry(s, t);
    AskedAppend(s.log, e);
    forall u | u in s'.workers ensures LoadedRecord(s'.log, u, s'.workers[u].record) && Given(s'.log, u, s'.workers[u].current) {
      LoadedAppend(s.log, e, u, s'.workers[u].record);
      GivenAppend(s.log, e, u, s'.workers[u].current);
    }
  }

  lemma QuietKeepsLoads(s: State, s': State)
    requires Loads(s) && Quiet(s, s')
    ensures Loads(s')
  {
  }

  lemma StepKeepsLoads(s: State, m: Move)
    requires Loads(s)
    ensures Loads(Step(s, m))
  {
    if !Speaks(s, m) {
      OtherMovesAreQuiet(s, m);
      QuietKeepsLoads(s, Step(s, m));
    } else if m.Load? {
      LoadKeepsLoads(s, m.token);
    } else {
      CallKeepsLoads(s, m.token, m.port, m.reply);
    }
  }

  lemma {:induction false} RunKeepsLoads(s: State, moves: seq<Move>)
    requires Init(s)
    ensures Loads(Run(s, moves))
  {
    if moves != [] {
      RunKeepsLoads(s, moves[..|moves| - 1]);
      StepKeepsLoads(Run(s, moves[..|moves| - 1]), moves[|moves| - 1]);
    }
  }

  /** A worker looks its reservation up at most once. */
  lemma OneLookup(cfg: Config, log: seq<Entry>, i: nat, j: nat)
    requires AllJustified(cfg, log) && i < |log| && j < |log| && log[i].token == log[j].token
    requires log[i].port.GetReservation? && log[j].port.GetReservation?
    ensures i == j
  {
    assert JustifiedAt(cfg, log, i) && JustifiedAt(cfg, log, j);
    assert Teaches(cfg, log[i].port, log[i].reply, QuotaLooked) && Teaches(cfg, log[j].port, log[j].reply, QuotaLooked);
    if i < j {
      GainedIsKnown(log, i, j);
    } else if j < i {
      GainedIsKnown(log, j, i);
    }
  }

  /** The lookup of a worker that is permitted to reserve: its only one, and it permits. */
  lemma PermittingLookup(cfg: Config, log: seq<Entry>, k: nat) returns (lookup: nat)
    requires AllJustified(cfg, log) && k < |log| && log[k].port.Reserve?
    ensures lookup < k && log[lookup].token == log[k].token && log[lookup].port.GetReservation? && PermitsReserve(log[lookup].reply)
    ensures forall i :: 0 <= i < |log| && log[i].token == log[k].token && log[i].port.GetReservation? ==> i == lookup
  {
    lookup := PriorCall(cfg, log, k, ReserveAllowed);
    forall i | 0 <= i < |log| && log[i].token == log[k].token && log[i].port.GetReservation? ensures i == lookup {
      OneLookup(cfg, log, i, lookup);
    }
  }

  /**
   A reservation is requested only by a worker that was shown a record neither reserved nor confirmed and
   that looked exactly this record up, once, with the answer not-found, an empty record, or a record
   neither reserved nor confirmed; and only for the shown record or the one the lookup brought.
   */
  lemma ReserveOnlyWhenPermitted(s: State, moves: seq<Move>, k: nat) returns (lookup: nat, loaded: Reservation)
    requires Init(s) && k < |Run(s, moves).log| && Run(s, moves).log[k].port.Reserve?
    ensures var log := Run(s, moves).log;
            && lookup < k && log[lookup].token == log[k].token && log[lookup].port == GetReservation(loaded.id) && PermitsReserve(log[lookup].reply)
            && (forall i :: 0 <= i < |log| && log[i].token == log[k].token && log[i].port.GetReservation? ==> i == lookup)
            && LoadedRecord(log[..k], log[k].token, loaded) && Open(loaded)
            && Open(log[k].port.r) && Given(log[..k], log[k].token, log[k].port.r)
  {
    var log := Run(s, moves).log;
    LogIsJustified(s, moves);
    lookup := PermittingLookup(s.cfg, log, k);
    RunKeepsLoads(s, moves);
    assert AskedFor(log, k) && AskedFor(log, lookup);
    loaded :| LoadedRecord(log[..k], log[k].token, loaded) && Open(loaded);
    var record :| LoadedRecord(log[..lookup], log[k].token, record) && Open(record) && log[lookup].port.key == record.id;
    OneRecord(Run(s, moves), k, lookup, loaded, record);
  }

  lemma OneRecord(s: State, k: nat, j: nat, a: Reservation, b: Reservation)
    requires OneLoad(s) && k < |s.log| && j < |s.log| && s.log[k].token == s.log[j].token
    requires LoadedRecord(s.log[..k], s.log[k].token, a) && LoadedRecord(s.log[..j], s.log[k].token, b)
    ensures a == b
  {
    var x :| 0 <= x < k && s.log[..k][x].token == s.log[k].token && s.log[..k][x].port.LoadOperation? && s.log[..k][x].reply.reservation == a;
    var y :| 0 <= y < j && s.log[..j][y].token == s.log[k].token && s.log[..j][y].port.LoadOperation? && s.log[..j][y].reply.reservation == b;
    assert s.log[x].reply.reservation == a && s.log[y].reply.reservation == b;
  }
}
