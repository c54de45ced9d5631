/**
 How far quota is conserved, exactly. A stop or delete gives up the one reservation its loads show, and a
 replacement clears the one earlier reservation: nothing is left behind, and nothing held twice, on every
 run if and only if the authority holds nothing else for the service when the operation is accepted.
 */
module QuotaExactness {
  import opened Text
  import opened OperationSteps
  import opened RunnerProtocol
  import opened QuotaSafety
  import opened QuotaConservation
  import opened RunnerWitness

  /** A freshly accepted operation that is the current one, on the path of its kind. */
  ghost predicate FreshlyAccepted(s: State) {
    Init(s) && s.lease.current && s.cfg.path == Path(s.cfg.kind) && QuotaOwned(s.cfg)
  }

  /** An operation that ends the service's hold on quota. */
  ghost predicate EndsHold(s: State) {
    FreshlyAccepted(s) && (s.cfg.kind == Stop || s.cfg.kind == Delete)
  }

  lemma EndingPath(s: State)
    requires EndsHold(s)
    ensures Ends(s.cfg) && Vacates(s.cfg.path) && Waits(s, WithdrawPublication) && |s.cfg.path| > 4
    ensures s.cfg.path[|s.cfg.path| - 2] == ReleaseQuota && s.cfg.path[3] == if s.cfg.kind == Stop then ReleaseQuota else DeleteCr
  {
    assert s.cfg.path[|s.cfg.path| - 2] == ReleaseQuota;
  }

  /** The operation reaches its last step with the records as they were accepted. */
  lemma ReachesRelease(reached: State -> bool, s: State) returns (s': State)
    requires Closed(reached) && reached(s) && EndsHold(s)
    ensures reached(s') && CameTo(s, s', ReleaseQuota)
  {
    EndingPath(s);
    s' := Vacated(reached, s);
    s' := PassesAbsence(reached, s');
    if s.cfg.kind == Delete {
      s' := RemovesCr(reached, s');
    }
  }

  function GivenUp(r: Reservation): Reservation {
    r.(state := Released)
  }

  lemma MayRelease(cfg: Config, w: Worker)
    requires w.step == ReleaseQuota && !w.done && w.phase == Running && w.record.id != ""
    ensures Legal(cfg, w, ReleaseCurrent(w.record))
    ensures Teaches(cfg, ReleaseCurrent(w.record), Good(cfg.id.operation), CurrentReleased)
  {
  }

  lemma MayRecord(cfg: Config, w: Worker)
    requires w.step == ReleaseQuota && !w.done && w.phase == Running && w.record.id != ""
    requires CurrentReleased in w.facts || Cancellable(cfg, w.record)
    ensures Legal(cfg, w, SaveReleased(GivenUp(w.record)))
    ensures Teaches(cfg, SaveReleased(GivenUp(w.record)), Good(cfg.id.operation), CurrentCleared)
  {
  }

  /** The reservation is recorded as released. */
  lemma Records(reached: State -> bool, s: State, t: Token) returns (s': State)
    requires Closed(reached) && reached(s) && Works(s, t) && s.workers[t].step == ReleaseQuota && s.workers[t].record.id != ""
    requires CurrentReleased in s.workers[t].facts || Cancellable(s.cfg, s.workers[t].record)
    requires HasRow(s.store.rows, s.workers[t].record)
    ensures reached(s') && Works(s', t) && s'.cfg == s.cfg && s'.authority == s.authority
    ensures CurrentCleared in s'.workers[t].facts && s'.workers[t].step == ReleaseQuota
  {
    MayRecord(s.cfg, s.workers[t]);
    s' := Says(reached, s, t, SaveReleased(GivenUp(s.workers[t].record)), Good(s.cfg.id.operation));
  }

  /** What the authority holds when an operation that was shown `first` is done. */
  function BooksAfter(cfg: Config, books: map<string, Reservation>, first: Reservation): map<string, Reservation> {
    if first.id == "" || Cancellable(cfg, first) then books else SetState(books, first.id, Released)
  }

  lemma GivesUp(reached: State -> bool, s: State, t: Token) returns (s': State)
    requires Closed(reached) && reached(s) && Works(s, t) && s.workers[t].step == ReleaseQuota
    requires s.workers[t].record.id == "" ==> CurrentCleared in s.workers[t].facts
    requires s.workers[t].record.id != "" ==> HasRow(s.store.rows, s.workers[t].record)
    ensures reached(s') && Works(s', t) && s'.cfg == s.cfg && CurrentCleared in s'.workers[t].facts && s'.workers[t].step == ReleaseQuota
    ensures s'.authority == BooksAfter(s.cfg, s.authority, s.workers[t].record)
  {
    s' := s;
    var record := s.workers[t].record;
    if record.id != "" && !Cancellable(s.cfg, record) {
      MayRelease(s.cfg, s.workers[t]);
      s' := Says(reached, s', t, ReleaseCurrent(record), Good(s.cfg.id.operation));
    }
    if record.id != "" {
      s' := Records(reached, s', t);
    }
  }

  lemma FromRelease(reached: State -> bool, s: State) returns (s': State)
    requires Closed(reached) && reached(s) && Waits(s, ReleaseQuota) && RowsKept(s.cfg, s.store.rows) && QuotaOwned(s.cfg)
    requires GoodPath(s.cfg.path) && s.cfg.path[|s.cfg.path| - 2] == ReleaseQuota
    ensures reached(s') && s'.op.phase == Succeeded && s'.authority == BooksAfter(s.cfg, s.authority, Shown(s.cfg, s.store.rows))
  {
    var t, a := Begins(reached, s, ReleaseQuota);
    if a.workers[t].record.id != "" {
      ShownIsTop(s.cfg, s.store.rows, s.cfg.id.generation, true);
    }
    a := GivesUp(reached, a, t);
    s' := Finishes(reached, a, t);
  }

  /** A stop or delete can succeed, and then has given up only what it was shown. */
  lemma CanSucceed(reached: State -> bool, s: State) returns (s': State)
    requires Closed(reached) && reached(s) && EndsHold(s)
    ensures reached(s') && s'.op.phase == Succeeded && s'.authority == BooksAfter(s.cfg, s.authority, Shown(s.cfg, s.store.rows))
  {
    EndingPath(s);
    var a := ReachesRelease(reached, s);
    s' := FromRelease(reached, a);
  }

  /** On every run that succeeds, the authority holds nothing more for the service. */
  ghost predicate NeverLeaks(s: State) {
    forall s' :: Reaches(s, s') && s'.op.phase.Succeeded? ==> HoldsNothing(s.cfg, s'.authority)
  }

  ghost predicate HoldsNothing(cfg: Config, books: map<string, Reservation>) {
    forall k :: !ServiceHolds(cfg, books, k)
  }

  lemma NeverLeaksIfSole(s: State)
    requires EndsHold(s) && SoleCurrent(s)
    ensures NeverLeaks(s)
  {
    EndingPath(s);
    forall s' | Reaches(s, s') && s'.op.phase.Succeeded? ensures HoldsNothing(s.cfg, s'.authority) {
      var moves :| Run(s, moves) == s';
      SoleMeansNoLeak(s, moves);
    }
  }

  lemma StaysHeld(cfg: Config, books: map<string, Reservation>, first: Reservation, k: string)
    requires ServiceHolds(cfg, books, k) && (k != first.id || Cancellable(cfg, first))
    ensures !HoldsNothing(cfg, BooksAfter(cfg, books, first))
  {
    assert ServiceHolds(cfg, BooksAfter(cfg, books, first), k);
  }

  lemma LeaksIfNotSole(s: State)
    requires EndsHold(s) && !SoleCurrent(s)
    ensures !NeverLeaks(s)
  {
    var first := Shown(s.cfg, s.store.rows);
    var k :| ServiceHolds(s.cfg, s.authority, k) && !(k == first.id && !Cancellable(s.cfg, first));
    ReachedIsClosed(s);
    var s' := CanSucceed(x => Reaches(s, x), s);
    StaysHeld(s.cfg, s.authority, first, k);
  }

  /**
   No leak, exactly: a succeeded stop or delete leaves nothing behind on every run if and only if the
   reservation that a load shows is all the authority holds for the service when the operation is accepted
   (and is not a placeholder that a delete only cancels).
   */
  lemma NoLeak(s: State)
    requires EndsHold(s)
    ensures NeverLeaks(s) <==> SoleCurrent(s)
  {
    if SoleCurrent(s) {
      NeverLeaksIfSole(s);
    } else {
      LeaksIfNotSole(s);
    }
  }

  // ---- Accepting an operation ----

  function Placeholding(id: Identity): Reservation {
    Reservation(id, PENDING_PREFIX + id.operation, Placeholder)
  }

  /** Accepting a start, restart or update adds a placeholder row of the new generation; a stop or delete adds none. */
  function RowsAccepted(rows: map<int, Reservation>, kind: Kind, id: Identity): map<int, Reservation> {
    if kind == Start || kind == Restart || kind == UpdateOp then rows[id.generation := Placeholding(id)] else rows
  }

  lemma ShowsPlaceholder(rows: map<int, Reservation>, id: Identity)
    requires 1 <= id.generation && id.generation in rows && rows[id.generation] == Placeholding(id)
    ensures Newest(rows, id.generation, true) == Placeholding(id)
    ensures id.generation + 1 !in rows ==> Newest(rows, id.generation + 1, true) == Placeholding(id)
  {
  }

  /** When a delete is shown a placeholder, it needs nothing to be held. */
  lemma SoleMeansNothing(s: State, id: Identity)
    requires s.cfg.kind == Delete && Shown(s.cfg, s.store.rows) == Placeholding(id)
    ensures SoleCurrent(s) <==> HoldsNothing(s.cfg, s.authority)
  {
    assert Cancellable(s.cfg, Placeholding(id));
  }

  /**
   A delete accepted right after a start, restart or update, which it cancels, is shown the placeholder of
   that operation, and so leaks whatever the authority then holds for the service.
   */
  lemma CancellingDeleteLeaks(s: State, rows: map<int, Reservation>, cancelled: Kind, id: Identity)
    requires EndsHold(s) && s.cfg.kind == Delete && (cancelled == Start || cancelled == Restart || cancelled == UpdateOp)
    requires 1 <= id.generation == s.cfg.id.generation - 1 && s.cfg.id.generation !in rows
    requires s.store.rows == RowsAccepted(RowsAccepted(rows, cancelled, id), Delete, s.cfg.id)
    ensures NeverLeaks(s) <==> HoldsNothing(s.cfg, s.authority)
  {
    NoLeak(s);
    ShowsPlaceholder(s.store.rows, id);
    SoleMeansNothing(s, id);
  }

  /** The input: a service with one confirmed reservation, whose update to generation 2 is cancelled by a delete. */
  function CancelledUpdate(path: seq<StepName>): State {
    State(Config(Delete, path, Identity("t", "s", "delete", 3), "create", false, false, false, true, false, false, false),
          OpState(Pending, WithdrawPublication), Lease(None, {}, true),
          Store(RowsAccepted(CreatedRows(), UpdateOp, Identity("t", "s", "update", 2)), false, Scope("", []), None),
          map["r1" := CreatedRows()[1]], map[], [])
  }

  function CreatedRows(): map<int, Reservation> {
    map[1 := Reservation(Identity("t", "s", "create", 1), "r1", Confirmed)]
  }

  lemma CancelledUpdateHolds(s: State)
    requires s == CancelledUpdate(s.cfg.path)
    ensures BooksKept(s) && !HoldsNothing(s.cfg, s.authority) && s.cfg.kind == Delete && s.cfg.id.generation == 3
    ensures s.store.rows == RowsAccepted(CreatedRows(), UpdateOp, Identity("t", "s", "update", 2))
  {
    assert ServiceHolds(s.cfg, s.authority, "r1");
  }

  lemma CancelledUpdateStarts(s: State)
    requires s == CancelledUpdate(s.cfg.path) && GoodPath(s.cfg.path) && Sequenced(s.cfg.path) && s.cfg.path[0] == WithdrawPublication
    ensures Init(s) && s.lease.current && QuotaOwned(s.cfg)
  {
    CancelledUpdateHolds(s);
  }

  lemma LeaksOnceStarted(s: State)
    requires EndsHold(s) && s == CancelledUpdate(s.cfg.path)
    ensures !NeverLeaks(s)
  {
    CancelledUpdateHolds(s);
    CancellingDeleteLeaks(s, CreatedRows(), UpdateOp, Identity("t", "s", "update", 2));
  }

  lemma CancelledUpdateLeaks(s: State)
    requires s == CancelledUpdate(Path(Delete))
    ensures EndsHold(s) && !NeverLeaks(s)
  {
    PathsAreGood(Delete);
    KindsAreSequenced(Delete);
    CancelledUpdateStarts(s);
    LeaksOnceStarted(s);
  }

  // ---- Replacements ----

  /** An accepted update or restart, with its placeholder row, for which the authority holds nothing yet. */
  ghost predicate Supplants(s: State) {
    && FreshlyAccepted(s) && (s.cfg.kind == UpdateOp || s.cfg.kind == Restart) && !HeldIn(s.authority, s.cfg.id)
    && s.cfg.id.generation in s.store.rows && s.store.rows[s.cfg.id.generation] == Placeholding(s.cfg.id)
  }

  lemma MayClear(cfg: Config, w: Worker)
    requires w.step == ReleasePreviousQuota && !w.done && w.phase == Running && w.previous.id != ""
    ensures Legal(cfg, w, ReleasePrevious(w.previous))
    ensures Teaches(cfg, ReleasePrevious(w.previous), Good(cfg.id.operation), PreviousReleased)
    ensures PreviousReleased in w.facts ==> Legal(cfg, w, SavePrevious(GivenUp(w.previous)))
    ensures Teaches(cfg, SavePrevious(GivenUp(w.previous)), Good(cfg.id.operation), PreviousCleared)
  {
  }

  function BooksCleared(books: map<string, Reservation>, previous: Reservation): (cleared: map<string, Reservation>)
    ensures cleared.Keys == books.Keys
  {
    if previous.id == "" then books else SetState(books, previous.id, Released)
  }

  /** Clearing an earlier row leaves the operation's own row alone. */
  ghost predicate ClearedOnly(s: State, s': State, previous: Reservation) {
    && s'.cfg == s.cfg && s'.authority == BooksCleared(s.authority, previous)
    && s.cfg.id.generation in s.store.rows && s.cfg.id.generation in s'.store.rows
    && s'.store.rows[s.cfg.id.generation] == s.store.rows[s.cfg.id.generation]
  }

  ghost predicate Clearable(s: State, previous: Reservation) {
    HasRow(s.store.rows, previous) && previous.owner.generation != s.cfg.id.generation
  }

  lemma Clears(reached: State -> bool, s: State, t: Token) returns (s': State)
    requires Closed(reached) && reached(s) && Works(s, t) && s.workers[t].step == ReleasePreviousQuota
    requires s.workers[t].previous.id == "" ==> PreviousCleared in s.workers[t].facts
    requires s.workers[t].previous.id != "" ==> Clearable(s, s.workers[t].previous)
    requires s.cfg.id.generation in s.store.rows
    ensures reached(s') && Works(s', t) && PreviousCleared in s'.workers[t].facts && s'.workers[t].step == ReleasePreviousQuota
    ensures ClearedOnly(s, s', s.workers[t].previous)
  {
    s' := s;
    var previous := s.workers[t].previous;
    if previous.id != "" {
      MayClear(s.cfg, s.workers[t]);
      s' := Says(reached, s, t, ReleasePrevious(previous), Good(s.cfg.id.operation));
      MayClear(s.cfg, s'.workers[t]);
      s' := Says(reached, s', t, SavePrevious(GivenUp(previous)), Good(s.cfg.id.operation));
    }
  }

  /** An earlier row names no reservation of the operation's own generation. */
  lemma PreviousIsEarlier(cfg: Config, rows: map<int, Reservation>)
    requires RowsKept(cfg, rows)
    ensures var previous := ShownPrevious(cfg, rows);
            previous.id != "" ==> HasRow(rows, previous) && previous.owner.generation != cfg.id.generation
  {
    var previous := ShownPrevious(cfg, rows);
    if previous.id != "" {
      ShownIsTop(cfg, rows, cfg.id.generation - 1, false);
      NewestIs(rows, cfg.id.generation - 1, false);
    }
  }

  lemma ReachesQuota(reached: State -> bool, s: State) returns (s': State)
    requires Closed(reached) && reached(s) && Waits(s, ReleasePreviousQuota) && RowsKept(s.cfg, s.store.rows)
    requires s.cfg.id.generation in s.store.rows && QuotaOwned(s.cfg)
    requires GoodPath(s.cfg.path) && |s.cfg.path| > 6 && s.cfg.path[3] == ReleasePreviousQuota && s.cfg.path[4] == ReserveQuota
    ensures reached(s') && Waits(s', ReserveQuota) && ClearedOnly(s, s', ShownPrevious(s.cfg, s.store.rows))
  {
    var t, a := Begins(reached, s, ReleasePreviousQuota);
    PreviousIsEarlier(s.cfg, s.store.rows);
    a := Clears(reached, a, t);
    s' := Advances(reached, a, t, 3);
  }

  lemma FreshId(used: set<string>) returns (id: string)
    ensures id != "" && id !in used && forall x :: x in used ==> |x| < |id|
    decreases |used|
  {
    if used == {} {
      id := "r";
    } else {
      var x :| x in used;
      var rest := FreshId(used - {x});
      id := if |rest| > |x| then rest else x + "r";
      forall y | y in used ensures |y| < |id| {
        assert y == x || y in used - {x};
      }
    }
  }

  /** A worker at the quota step with the operation's placeholder, before it looks the reservation up. */
  ghost predicate AtQuota(s: State, t: Token) {
    && Works(s, t) && QuotaOwned(s.cfg) && s.workers[t].step == ReserveQuota && s.workers[t].current == s.workers[t].record
    && s.workers[t].record == Placeholding(s.cfg.id)
  }

  lemma MayLookUp(cfg: Config, w: Worker)
    requires !w.done && w.phase == Running && w.step == ReserveQuota && w.current == w.record == Placeholding(cfg.id) && QuotaOwned(cfg)
    requires QuotaLooked !in w.facts
    ensures Legal(cfg, w, GetReservation(w.record.id))
    ensures Teaches(cfg, GetReservation(w.record.id), Good(cfg.id.operation), ReserveAllowed)
  {
  }

  lemma MayReserve(cfg: Config, w: Worker)
    requires !w.done && w.phase == Running && w.step == ReserveQuota && w.current == w.record == Placeholding(cfg.id) && QuotaOwned(cfg)
    requires ReserveAllowed in w.facts
    ensures Legal(cfg, w, Reserve(w.record))
  {
  }

  function Taking(cfg: Config, id: string): Reply {
    Good("").(reservation := Reservation(cfg.id, id, Reserved))
  }

  /** The worker looks up, finds nothing, and reserves. */
  lemma Takes(reached: State -> bool, s: State, t: Token, id: string) returns (s': State)
    requires Closed(reached) && reached(s) && AtQuota(s, t) && QuotaLooked !in s.workers[t].facts
    requires id != "" && id !in s.authority && forall g :: g in s.store.rows ==> s.store.rows[g].id != id
    ensures reached(s') && s'.cfg == s.cfg && s'.authority == s.authority[id := Reservation(s.cfg.id, id, Reserved)]
  {
    MayLookUp(s.cfg, s.workers[t]);
    var a := Says(reached, s, t, GetReservation(s.workers[t].record.id), Good(s.cfg.id.operation));
    MayReserve(s.cfg, a.workers[t]);
    s' := Says(reached, a, t, Reserve(a.workers[t].record), Taking(s.cfg, id));
  }

  lemma Reserves(reached: State -> bool, s: State) returns (s': State, id: string)
    requires Closed(reached) && reached(s) && Waits(s, ReserveQuota) && QuotaOwned(s.cfg) && 1 <= s.cfg.id.generation
    requires s.cfg.id.generation in s.store.rows && s.store.rows[s.cfg.id.generation] == Placeholding(s.cfg.id)
    ensures reached(s') && s'.cfg == s.cfg && id !in s.authority && s'.authority == s.authority[id := Reservation(s.cfg.id, id, Reserved)]
  {
    var t, a := Begins(reached, s, ReserveQuota);
    ShowsPlaceholder(s.store.rows, s.cfg.id);
    id := FreshId(s.authority.Keys + set g | g in s.store.rows :: s.store.rows[g].id);
    s' := Takes(reached, a, t, id);
  }

  /** The first five steps of a replacement. */
  ghost predicate Supplanting(path: seq<StepName>) {
    |path| > 6 && Vacates(path) && path[3] == ReleasePreviousQuota && path[4] == ReserveQuota
  }

  lemma ReplacementSupplants()
    ensures Supplanting(ReplacementPath())
  {
  }

  lemma SupplantingPath(s: State)
    requires Supplants(s)
    ensures Supplanting(s.cfg.path) && Waits(s, WithdrawPublication) && Replaces(s.cfg) && 1 <= s.cfg.id.generation
  {
    ReplacementKeepsQuota();
    ReplacementSupplants();
  }

  lemma VacatesAndClears(reached: State -> bool, s: State) returns (s': State)
    requires Closed(reached) && reached(s) && Supplants(s) && Supplanting(s.cfg.path) && Waits(s, WithdrawPublication)
    ensures reached(s') && Waits(s', ReserveQuota) && ClearedOnly(s, s', ShownPrevious(s.cfg, s.store.rows))
  {
    s' := Vacated(reached, s);
    s' := PassesAbsence(reached, s');
    s' := ReachesQuota(reached, s');
  }

  /** A replacement can come to hold quota, and then has released only the earlier reservation it was shown. */
  lemma CanReserve(reached: State -> bool, s: State) returns (s': State, id: string)
    requires Closed(reached) && reached(s) && Supplants(s)
    requires Supplanting(s.cfg.path) && Waits(s, WithdrawPublication) && 1 <= s.cfg.id.generation
    ensures reached(s') && s'.cfg == s.cfg && id !in s.authority
    ensures s'.authority == BooksCleared(s.authority, ShownPrevious(s.cfg, s.store.rows))[id := Reservation(s.cfg.id, id, Reserved)]
  {
    var a := VacatesAndClears(reached, s);
    s', id := Reserves(reached, a);
  }

  ghost predicate NeverDoubles(s: State) {
    forall s' :: Reaches(s, s') ==> !DoubleHold(s')
  }

  lemma NeverDoublesIfSole(s: State)
    requires Supplants(s) && SoleEarlier(s)
    ensures NeverDoubles(s)
  {
    SupplantingPath(s);
    forall s' | Reaches(s, s') ensures !DoubleHold(s') {
      var moves :| Run(s, moves) == s';
      NoDoubleHold(s, moves);
    }
  }

  lemma BothHeld(s: State, s': State, previous: Reservation, id: string, k: string)
    requires s'.cfg == s.cfg && id !in s.authority && ServiceHolds(s.cfg, s.authority, k) && s.authority[k].owner != s.cfg.id
    requires k != previous.id && s'.authority == BooksCleared(s.authority, previous)[id := Reservation(s.cfg.id, id, Reserved)]
    ensures DoubleHold(s')
  {
    assert HeldAt(s'.authority, id, s.cfg.id);
    assert ServiceHolds(s'.cfg, s'.authority, k);
  }

  lemma DoublesIfNotSole(s: State)
    requires Supplants(s) && !SoleEarlier(s)
    ensures !NeverDoubles(s)
  {
    var k :| ServiceHolds(s.cfg, s.authority, k) && k != ShownPrevious(s.cfg, s.store.rows).id;
    assert HeldAt(s.authority, k, s.authority[k].owner);
    ReachedIsClosed(s);
    SupplantingPath(s);
    var s', id := CanReserve(x => Reaches(s, x), s);
    BothHeld(s, s', ShownPrevious(s.cfg, s.store.rows), id, k);
  }

  /**
   No double hold, exactly: the authority never holds quota for the replacement and for an earlier operation
   at once, on every run, if and only if the one earlier reservation that a load shows is all it holds for
   the service when the replacement is accepted.
   */
  lemma NoDouble(s: State)
    requires Supplants(s)
    ensures NeverDoubles(s) <==> SoleEarlier(s)
  {
    if SoleEarlier(s) {
      NeverDoublesIfSole(s);
    } else {
      DoublesIfNotSole(s);
    }
  }
}
