/**
 The operation runner as a protocol. Any number of workers load one persisted operation under leases,
 call providers and the store, advance or retry the operation, crash, or go on after losing their
 lease. The module gives the moves of that protocol and proves what holds over every run of them.
 */
module RunnerProtocol {
  import opened Text
  import opened OperationSteps
  import opened ReleaseProof

  type Token = nat

  // ---- Records ----

  datatype Identity = Identity(tenant: string, service: string, operation: string, generation: int)

  datatype ReservationState = Placeholder | Reserved | Confirmed | ReleasePending | Released | OtherState(name: string)

  /** A quota reservation; an empty id means there is none. */
  datatype Reservation = Reservation(owner: Identity, id: string, state: ReservationState)

  function NoReservation(): Reservation {
    Reservation(Identity("", "", "", 0), "", Released)
  }

  /** The persisted release scope: the absence seal (empty until sealed) and the recorded Pods. */
  datatype Scope = Scope(seal: string, pods: seq<PodRef>)

  /** The name-based id of the release event of a delete operation. */
  datatype EventId = ReleaseEvent(operation: string) | OtherEvent(id: string)

  datatype Reason = ResourceReleased | AbortedCleaned

  /** The four fields reported to the quota owner. */
  datatype Notification = Notification(event: EventId, createOperation: string, resource: string, reason: Reason)

  /** A persisted release report: the evidence and the exact notification. */
  datatype Report = Report(evidence: Proof, note: Notification)

  datatype Observation = Observation(ready: bool, modelKnown: bool, modelReady: bool, absent: bool, pods: seq<PodRef>)

  /** What does not change while an operation runs. */
  datatype Config = Config(
    kind: Kind, path: seq<StepName>, id: Identity, createOperation: string,
    managed: bool, managedGpu: bool, gpuRequest: bool, quota: bool, scopeStore: bool, reportStore: bool, endpoints: bool)

  predicate QuotaOwned(cfg: Config) {
    cfg.quota && !cfg.managed && !cfg.managedGpu
  }

  predicate ManagedDelete(cfg: Config) {
    cfg.managedGpu && cfg.kind == Delete
  }

  /** The one release notification of an operation: all four fields follow from persisted identities. */
  function Canonical(cfg: Config): Notification {
    Notification(ReleaseEvent(cfg.id.operation), cfg.createOperation, cfg.id.service, ResourceReleased)
  }

  // ---- Calls, replies and facts ----

  /** Every provider or store call a step makes. */
  datatype Port =
    | LoadOperation
    | Admit
    | GetReservation(key: string) | Reserve(r: Reservation) | Confirm(r: Reservation) | SaveReservation(r: Reservation)
    | ResolvePlan | SavePlan
    | ReleasePrevious(r: Reservation) | SavePrevious(r: Reservation)
    | PutCr
    | MarkMaterializing | EnsureModel | SaveModel
    | PutRuntime
    | LookReady | SaveReady
    | SaveWithdrawing | Withdraw | ConfirmWithdrawn | SaveWithdrawn
    | RequestDelete
    | LookAbsent | SaveAbsent | SaveScope(seal: string, pods: seq<PodRef>) | LoadScope
    | RemoveCr | CleanupModel
    | SavePublishing | Expose | ConfirmPublished | ResolveEndpoint | SavePublished
    | ReleaseCurrent(r: Reservation) | SaveReleased(r: Reservation)
    | LoadContext | LoadReport | SaveReport(report: Report) | SendReport(note: Notification)

  /** What a worker may learn from a reply. */
  datatype Fact =
    | Admitted | ReserveAllowed | QuotaConfirmed | CrApplied | ModelReady | ModelSaved | RuntimeApplied
    | RuntimeReady | ReadySaved | WithdrawIntent | WithdrawConfirmed | WithdrawSaved | DeleteAccepted
    | AbsenceObserved | AbsenceSaved | Sealed | CrRemoved | ModelCleaned | PublishIntent | PublishConfirmed
    | PublishSaved | ReportDurable | ReportSent | PlanResolved | PlanKept | PreviousReleased | PreviousCleared
    | CurrentReleased | CurrentCleared | Looked | PodsKept | EndpointKnown | ModelMarked | ContextMatched
    | QuotaLooked | QuotaReserved | QuotaKept | WithdrawRequested | ExposeRequested | NoReport

  /**
   A reply. `failed` is an error; `applied` says a failed call took effect all the same; the other
   fields are the values the different calls return.
   */
  datatype Reply = Reply(
    failed: bool, applied: bool, missing: bool, yes: bool, observation: Observation,
    reservation: Reservation, pods: seq<PodRef>, report: Option<Notification>, text: string)

  /** The calls each step makes. */
  predicate AtStep(p: Port, step: StepName) {
    match step
    case Admission => p.Admit?
    case ReserveQuota => p.GetReservation? || p.Reserve? || p.Confirm? || p.SaveReservation?
    case ResolveGpu => p.ResolvePlan? || p.SavePlan?
    case ReleasePreviousQuota => p.ReleasePrevious? || p.SavePrevious?
    case ApplyCr => p.PutCr?
    case MaterializeModel => p.MarkMaterializing? || p.EnsureModel? || p.SaveModel?
    case ApplyRuntime => p.PutRuntime?
    case ObserveRuntime => p.LookReady? || p.SaveReady? || p.SaveScope?
    case WithdrawPublication => p.SaveWithdrawing? || p.Withdraw? || p.ConfirmWithdrawn? || p.SaveWithdrawn?
    case DeleteRuntime => p.RequestDelete?
    case ObserveAbsence => p.LookAbsent? || p.SaveAbsent? || p.SaveScope? || p.LoadScope?
    case DeleteCr => p.RemoveCr? || p.CleanupModel?
    case Publish => p.SavePublishing? || p.Expose? || p.ConfirmPublished? || p.ResolveEndpoint? || p.SavePublished?
    case ReleaseQuota =>
      || p.ReleaseCurrent? || p.SaveReleased? || p.LoadScope? || p.LoadContext? || p.LoadReport? || p.SaveReport? || p.SendReport?
    case _ => false
  }

  /** Store writes that succeed only under the current lease of the current operation. */
  predicate Fenced(p: Port) {
    || p.SaveReservation? || p.SavePlan? || p.SavePrevious? || p.MarkMaterializing? || p.SaveModel? || p.SaveReady?
    || p.SaveWithdrawing? || p.SaveWithdrawn? || p.SaveAbsent? || p.SavePublishing? || p.SavePublished?
    || p.SaveReleased? || p.SaveReport?
  }

  /** What the same worker must have learned before it makes a call at a step. */
  function Prior(cfg: Config, step: StepName, p: Port): set<Fact> {
    if p.Reserve? then {ReserveAllowed}
    else if p.SavePlan? then {PlanResolved}
    else if p.SavePrevious? && p.r.state.Released? then {PreviousReleased}
    else if p.EnsureModel? then {ModelMarked}
    else if p.SaveModel? then {ModelReady}
    else if p.SaveReady? || p.SaveAbsent? then {Looked}
    else if p.SaveScope? then if step.ObserveAbsence? then {Looked, AbsenceSaved} else {Looked, ReadySaved}
    else if p.Withdraw? then {WithdrawIntent}
    else if p.ConfirmWithdrawn? then {WithdrawIntent, WithdrawRequested}
    else if p.SaveWithdrawn? then {WithdrawConfirmed}
    else if p.CleanupModel? then {CrRemoved}
    else if p.Expose? then {PublishIntent}
    else if p.ConfirmPublished? then {PublishIntent, ExposeRequested}
    else if p.ResolveEndpoint? then {PublishConfirmed}
    else if p.SavePublished? then if cfg.endpoints then {PublishConfirmed, EndpointKnown} else {PublishConfirmed}
    else if p.LoadReport? then {ContextMatched}
    else if p.SaveReport? then {ContextMatched, NoReport}
    else if p.SendReport? then if cfg.reportStore then {ContextMatched, ReportDurable} else {ContextMatched}
    else {}
  }

  /** What a worker must have learned before it advances the operation past a step. */
  function Leave(cfg: Config, step: StepName): set<Fact> {
    match step
    case Admission => {Admitted}
    case ReserveQuota => if QuotaOwned(cfg) then {QuotaConfirmed, QuotaKept} else {}
    case ResolveGpu => if cfg.gpuRequest then {PlanKept} else {}
    case ReleasePreviousQuota => if QuotaOwned(cfg) then {PreviousCleared} else {}
    case ApplyCr => {CrApplied}
    case MaterializeModel => {ModelReady, ModelSaved}
    case ApplyRuntime => {RuntimeApplied}
    case ObserveRuntime => {RuntimeReady, ReadySaved} + if cfg.managedGpu && cfg.scopeStore then {PodsKept} else {}
    case WithdrawPublication => {WithdrawConfirmed, WithdrawSaved}
    case DeleteRuntime => {DeleteAccepted}
    case ObserveAbsence => {AbsenceObserved, AbsenceSaved} + if cfg.managedGpu && cfg.scopeStore then {PodsKept, Sealed} else {}
    case DeleteCr => {CrRemoved, ModelCleaned}
    case Publish => {PublishConfirmed, PublishSaved}
    case ReleaseQuota => if ManagedDelete(cfg) then {ReportSent} else if QuotaOwned(cfg) then {CurrentCleared} else {}
    case _ => {}
  }

  /** Does a lookup permit a new reservation? Only not-found, an empty record or a record in another state does. */
  predicate PermitsReserve(r: Reply) {
    if r.failed then r.missing
    else r.reservation.id == "" || !(r.reservation.state.Reserved? || r.reservation.state.Confirmed?)
  }

  predicate ValidReservation(cfg: Config, r: Reservation) {
    r.owner == cfg.id && r.id != ""
  }

  /** Does this reply to this call teach the fact? */
  predicate Teaches(cfg: Config, p: Port, r: Reply, f: Fact) {
    match f
    case ReserveAllowed => p.GetReservation? && PermitsReserve(r)
    case QuotaConfirmed =>
      && !r.failed
      && ((p.Confirm? && ValidReservation(cfg, p.r))
          || (p.GetReservation? && ValidReservation(cfg, r.reservation) && r.reservation.state.Confirmed?))
    case Admitted => p.Admit? && !r.failed
    case CrApplied => p.PutCr? && !r.failed
    case ModelReady => p.EnsureModel? && !r.failed && r.observation.modelKnown && r.observation.modelReady
    case ModelSaved => p.SaveModel? && !r.failed
    case RuntimeApplied => p.PutRuntime? && !r.failed
    case RuntimeReady => p.LookReady? && !r.failed && r.observation.ready && r.observation.modelKnown && r.observation.modelReady
    case ReadySaved => p.SaveReady? && !r.failed
    case WithdrawIntent => p.SaveWithdrawing? && !r.failed
    case WithdrawConfirmed => p.ConfirmWithdrawn? && !r.failed && r.yes
    case WithdrawSaved => p.SaveWithdrawn? && !r.failed
    case DeleteAccepted => p.RequestDelete? && !r.failed
    case AbsenceObserved => p.LookAbsent? && !r.failed && r.observation.absent
    case AbsenceSaved => p.SaveAbsent? && !r.failed
    case Sealed => p.SaveScope? && !r.failed && p.seal != ""
    case CrRemoved => p.RemoveCr? && !r.failed
    case ModelCleaned => p.CleanupModel? && !r.failed
    case PublishIntent => p.SavePublishing? && !r.failed
    case PublishConfirmed => p.ConfirmPublished? && !r.failed && r.yes
    case PublishSaved => p.SavePublished? && !r.failed
    case ReportDurable => !r.failed && (p.SaveReport? || (p.LoadReport? && r.report.Some?))
    case NoReport => p.LoadReport? && !r.failed && r.report.None?
    case ReportSent => p.SendReport? && !r.failed
    case QuotaLooked => p.GetReservation?
    case QuotaReserved => p.Reserve? && !r.failed
    case QuotaKept => p.SaveReservation? && !r.failed && p.r.state.Confirmed?
    case WithdrawRequested => p.Withdraw? && !r.failed
    case ExposeRequested => p.Expose? && !r.failed
    case Looked => (p.LookReady? || p.LookAbsent?) && !r.failed
    case PodsKept => !r.failed && (p.SaveScope? || ((p.LookReady? || p.LookAbsent?) && r.observation.pods == []))
    case EndpointKnown => p.ResolveEndpoint? && !r.failed && r.text != ""
    case ModelMarked => p.MarkMaterializing? && !r.failed
    case ContextMatched => p.LoadContext? && !r.failed && r.text != "" && r.text == cfg.id.operation
    case PlanResolved => p.ResolvePlan? && !r.failed && r.yes
    case PlanKept => p.SavePlan? && !r.failed
    case PreviousReleased => p.ReleasePrevious? && !r.failed
    case PreviousCleared => p.SavePrevious? && !r.failed && p.r.state.Released?
    case CurrentReleased => p.ReleaseCurrent? && !r.failed
    case CurrentCleared => p.SaveReleased? && !r.failed && p.r.state.Released?
  }

  function Gain(cfg: Config, p: Port, r: Reply): set<Fact> {
    set f: Fact | Teaches(cfg, p, r, f)
  }

  // ---- States and moves ----

  /**
   A worker: the operation as it loaded it (with the reservations and Pods it was shown), the reservation
   it works on, the seal, the Pods it saw, what it has learned since, and whether it has finished.
   */
  datatype Worker = Worker(
    phase: Phase, step: StepName, record: Reservation, previous: Reservation, pods: seq<PodRef>,
    current: Reservation, seal: string, seen: seq<PodRef>, report: Option<Notification>, facts: set<Fact>, done: bool)

  /** A logged call: who made it, at which step, the reply, what it taught, and whether the caller held the lease. */
  datatype Entry = Entry(token: Token, step: StepName, port: Port, reply: Reply, gained: set<Fact>, held: bool)

  /** The work lease: its holder, every token ever granted, and whether the operation is still the current one. */
  datatype Lease = Lease(holder: Option<Token>, used: set<Token>, current: bool)

  /** The persisted provider records: the service's reservation rows by generation, and those of the operation. */
  datatype Store = Store(rows: map<int, Reservation>, plan: bool, scope: Scope, report: Option<Report>)

  /** The operation row, its lease and records, the quota authority's books, the workers and the log of all calls. */
  datatype State = State(
    cfg: Config, op: OpState, lease: Lease, store: Store, authority: map<string, Reservation>,
    workers: map<Token, Worker>, log: seq<Entry>)

  datatype Move =
    | Grant(token: Token) | Expire | Supersede
    | Load(token: Token)
    | Call(token: Token, port: Port, reply: Reply)
    | Claim(token: Token)
    | Advance(token: Token, phase: Phase, step: StepName)
    | Fail(token: Token)
    | Retry(token: Token, phase: Phase, step: StepName)

  /** Does this token pass the store's fence: current lease, current operation? */
  predicate Held(s: State, t: Token) {
    s.lease.current && s.lease.holder == Some(t)
  }

  /** A reservation that has neither been granted nor confirmed. */
  predicate Open(r: Reservation) {
    !r.state.Reserved? && !r.state.Confirmed?
  }

  /** A reservation with the recorded outcome of its release. */
  predicate Outcome(r: Reservation, x: Reservation) {
    r.id != "" && x.id == r.id && x.owner == r.owner && (x.state.Released? || x.state.ReleasePending?)
  }

  const PENDING_PREFIX := "pending-"

  /** A local placeholder that a delete may cancel without the authority. */
  predicate Cancellable(cfg: Config, r: Reservation) {
    cfg.kind == Delete && r.state.Placeholder? && PENDING_PREFIX <= r.id
  }

  /** The facts that the evidence of an operation is built from. */
  function ProofInput(cfg: Config, seal: string, pods: seq<PodRef>): Input {
    Input(cfg.id.tenant, cfg.id.service, cfg.createOperation, cfg.id.operation, Trim(seal), pods)
  }

  /** The evidence names this operation, the worker's seal and exactly the Pods the worker has. */
  predicate Attests(cfg: Config, w: Worker, e: Proof) {
    && e.evidenceFor == cfg.id.operation && e.payload == ProofInput(cfg, w.seal, e.payload.pods)
    && multiset(e.payload.pods) == multiset(w.pods)
  }

  /** Conditions of a call on the values the worker passes. */
  predicate Argued(cfg: Config, w: Worker, p: Port) {
    && (p.GetReservation? ==> QuotaOwned(cfg) && Open(w.record) && p.key == w.record.id && QuotaLooked !in w.facts)
    && (p.Reserve? ==> QuotaOwned(cfg) && Open(w.record) && Open(p.r) && p.r == w.current && ValidReservation(cfg, p.r))
    && (p.Confirm? ==> QuotaOwned(cfg) && p.r == w.current && ValidReservation(cfg, p.r) && (p.r.state.Reserved? || QuotaReserved in w.facts))
    && (p.SaveReservation? ==> QuotaOwned(cfg) && ValidReservation(cfg, p.r) && p.r.id == w.current.id
                               && if p.r.state.Confirmed? then QuotaConfirmed in w.facts else p.r.state.Reserved? && QuotaConfirmed !in w.facts)
    && (p.ReleasePrevious? ==> p.r == w.previous && w.previous.id != "")
    && (p.SavePrevious? ==> Outcome(w.previous, p.r))
    && (p.ReleaseCurrent? ==> p.r == w.record && w.record.id != "")
    && (p.SaveReleased? ==> Outcome(w.record, p.r) && (p.r.state.Released? ==> CurrentReleased in w.facts || Cancellable(cfg, w.record)))
    && (p.LookReady? || p.LookAbsent? ==> Looked !in w.facts)
    && (p.SaveScope? ==> cfg.managedGpu && cfg.scopeStore && p.pods == w.seen
                         && (p.seal == "" || p.seal == w.seal || (w.seal == "" && AbsenceObserved in w.facts)))
    && (p.LoadScope? ==> cfg.managedGpu && cfg.scopeStore && w.pods == [])
    && (p.SaveReport? ==> cfg.reportStore && ManagedDelete(cfg) && p.report.note == Canonical(cfg) && !Blank(w.seal)
                          && Attests(cfg, w, p.report.evidence))
    && (p.SendReport? ==> ManagedDelete(cfg) && (w.report == Some(p.note) || (p.note == Canonical(cfg) && !Blank(w.seal))))
  }

  /** May the worker make this call now? */
  predicate Legal(cfg: Config, w: Worker, p: Port) {
    && !w.done && w.phase.Running? && AtStep(p, w.step)
    && Prior(cfg, w.step, p) <= w.facts && Argued(cfg, w, p)
  }

  /** Extends the recorded Pods without forgetting one; `None` when a UID would change its identity. */
  function MergePods(stored: seq<PodRef>, incoming: seq<PodRef>): (r: Option<seq<PodRef>>)
    ensures r.Some? ==> stored <= r.value
    ensures r.Some? ==> forall p :: p in incoming ==> p in r.value
    ensures r.Some? ==> forall p :: p in r.value ==> p in stored || p in incoming
    ensures r.Some? && DistinctUids(stored) ==> DistinctUids(r.value)
    decreases |incoming|
  {
    if incoming == [] then Some(stored)
    else
      var p := incoming[0];
      assert incoming == [p] + incoming[1..];
      if exists q :: q in stored && q.uid == p.uid then
        if p in stored then MergePods(stored, incoming[1..]) else None
      else
        assert p in stored + [p];
        MergePods(stored + [p], incoming[1..])
  }

  /** The scope after a save: an incoming seal replaces the stored one, an absent seal keeps it. */
  function SavedScope(stored: Scope, seal: string, pods: seq<PodRef>): Option<Scope> {
    match MergePods(stored.pods, pods)
    case None => None
    case Some(all) => Some(Scope(if seal == "" then stored.seal else seal, all))
  }

  function SetState(authority: map<string, Reservation>, id: string, state: ReservationState): map<string, Reservation> {
    if id in authority then authority[id := authority[id].(state := state)] else authority
  }

  /** The row of a reservation: that of its operation. */
  predicate HasRow(rows: map<int, Reservation>, x: Reservation) {
    x.owner.generation in rows && rows[x.owner.generation].owner == x.owner
  }

  function Recorded(rows: map<int, Reservation>, x: Reservation): map<int, Reservation> {
    if HasRow(rows, x) then rows[x.owner.generation := x] else rows
  }

  /** What a call changes in the store and at the quota authority when it takes effect. */
  function StoreEffect(store: Store, p: Port): Store {
    match p
    case SaveReservation(x) => store.(rows := Recorded(store.rows, x))
    case SavePrevious(x) => store.(rows := Recorded(store.rows, x))
    case SavePlan => store.(plan := true)
    case SaveScope(seal, pods) =>
      var saved := SavedScope(store.scope, seal, pods);
      if saved.Some? then store.(scope := saved.value) else store
    case SaveReleased(x) => store.(rows := Recorded(store.rows, x))
    case SaveReport(report) => store.(report := Some(report))
    case _ => store
  }

  function AuthorityEffect(books: map<string, Reservation>, p: Port, r: Reply): map<string, Reservation> {
    match p
    case Reserve(_) => if r.reservation.id in books || r.reservation.id == "" then books else books[r.reservation.id := r.reservation]
    case Confirm(x) => SetState(books, x.id, Confirmed)
    case ReleasePrevious(x) => SetState(books, x.id, Released)
    case ReleaseCurrent(x) => SetState(books, x.id, Released)
    case _ => books
  }

  /** Which replies the quota authority and the store can give. */
  predicate Fits(held: bool, store: Store, books: map<string, Reservation>, p: Port, r: Reply) {
    var effective := !r.failed || r.applied;
    && (Fenced(p) && effective ==> held)
    && match p
       case GetReservation(key) => !r.failed && r.reservation.id != "" ==> key in books && r.reservation == books[key]
       case Reserve(_) =>
         && (effective && r.reservation.id in books ==> books[r.reservation.id] == r.reservation)
         && (effective ==> forall g :: g in store.rows && r.reservation.id == store.rows[g].id ==> store.rows[g].owner == p.r.owner)
         && (effective && r.reservation.id !in books ==> r.reservation.owner == p.r.owner)
       case Confirm(x) => effective ==> x.id in books && books[x.id].owner == x.owner
       case SaveReservation(x) => effective ==> HasRow(store.rows, x)
       case SavePrevious(x) => effective ==> HasRow(store.rows, x)
       case SaveReleased(x) => effective ==> HasRow(store.rows, x)
       case SaveScope(seal, pods) => effective ==> SavedScope(store.scope, seal, pods).Some?
       case LoadScope => !r.failed ==> r.pods == store.scope.pods
       case LoadReport => !r.failed ==> r.report == if store.report.Some? then Some(store.report.value.note) else None
       case SaveReport(report) => effective ==> store.report == None || store.report == Some(report)
       case _ => true
  }

  /** A worker after a reply. */
  function Learned(cfg: Config, w: Worker, p: Port, r: Reply): Worker {
    w.(facts := w.facts + Gain(cfg, p, r),
       current := if (p.GetReservation? && !r.failed && r.reservation.id != "") || (p.Reserve? && !r.failed) then r.reservation else w.current,
       pods := if p.LoadScope? && !r.failed then r.pods else w.pods,
       seal := if p.SaveScope? && p.seal != "" then p.seal else w.seal,
       seen := if (p.LookReady? || p.LookAbsent?) && !r.failed then r.observation.pods else w.seen,
       report := if p.LoadReport? && !r.failed then r.report else w.report)
  }

  /** The states of a reservation that the authority has granted and not yet taken back. */
  predicate Granted(state: ReservationState) {
    state.Reserved? || state.Confirmed? || state.ReleasePending?
  }

  /** The row of the newest generation up to `g` that is granted or, for `pendingToo`, a placeholder; none when there is none. */
  function Newest(rows: map<int, Reservation>, g: int, pendingToo: bool): Reservation
    decreases if g < 0 then 0 else g
  {
    if g < 1 then NoReservation()
    else if g in rows && (Granted(rows[g].state) || (pendingToo && rows[g].state.Placeholder?)) then rows[g]
    else Newest(rows, g - 1, pendingToo)
  }

  /** The reservations a load shows: the newest outstanding one, and for a replacement the newest earlier one that is granted. */
  function Shown(cfg: Config, rows: map<int, Reservation>): Reservation {
    Newest(rows, cfg.id.generation, true)
  }

  function ShownPrevious(cfg: Config, rows: map<int, Reservation>): Reservation {
    if cfg.kind == UpdateOp || cfg.kind == Restart then Newest(rows, cfg.id.generation - 1, false) else NoReservation()
  }

  /** The facts a load itself teaches: a confirmed reservation of this operation, nothing left to release, a plan. */
  function LoadFacts(cfg: Config, store: Store): set<Fact> {
    var record := Shown(cfg, store.rows);
    (if QuotaOwned(cfg) && ReserveQuota in cfg.path && ValidReservation(cfg, record) && record.state.Confirmed? then {QuotaConfirmed, QuotaKept} else {})
    + (if ShownPrevious(cfg, store.rows).id == "" then {PreviousCleared} else {})
    + (if record.id == "" then {CurrentCleared} else {})
    + (if store.plan then {PlanKept} else {})
  }

  function NoReply(): Reply {
    Reply(true, false, false, false, Observation(false, false, false, false, []), Reservation(Identity("", "", "", 0), "", Placeholder), [], None, "")
  }

  /** The log entry of a load; its reply carries the reservation, the seal and the Pods it showed. */
  function LoadEntry(s: State, t: Token): Entry {
    var reply := NoReply().(failed := false, reservation := Shown(s.cfg, s.store.rows), text := s.store.scope.seal, pods := s.store.scope.pods);
    Entry(t, s.op.step, LoadOperation, reply, LoadFacts(s.cfg, s.store), true)
  }

  predicate ActivePhase(phase: Phase) {
    phase.Pending? || phase.Running?
  }

  function DoGrant(l: Lease, t: Token): Lease {
    if t in l.used then l else l.(holder := Some(t), used := l.used + {t})
  }

  /** A lease holder loads the operation. */
  function DoLoad(s: State, t: Token): State {
    if !Held(s, t) || t in s.workers || !ActivePhase(s.op.phase) then s
    else
      var facts := LoadFacts(s.cfg, s.store);
      var record := Shown(s.cfg, s.store.rows);
      var w := Worker(s.op.phase, s.op.step, record, ShownPrevious(s.cfg, s.store.rows), s.store.scope.pods,
                      record, s.store.scope.seal, [], None, facts, false);
      s.(workers := s.workers[t := w], log := s.log + [LoadEntry(s, t)])
  }

  predicate MayCall(s: State, t: Token, p: Port, r: Reply) {
    t in s.workers && Legal(s.cfg, s.workers[t], p) && Fits(Held(s, t), s.store, s.authority, p, r)
  }

  function DoCall(s: State, t: Token, p: Port, r: Reply): State {
    if !MayCall(s, t, p, r) then s
    else
      var w, effective := s.workers[t], !r.failed || r.applied;
      s.(store := if effective then StoreEffect(s.store, p) else s.store,
         authority := if effective then AuthorityEffect(s.authority, p, r) else s.authority,
         workers := s.workers[t := Learned(s.cfg, w, p, r)],
         log := s.log + [Entry(t, w.step, p, r, Gain(s.cfg, p, r), Held(s, t))])
  }

  /** The store's conditional write: it takes effect under the lease, from the expected phase and step. */
  function Cas(s: State, t: Token, expected: OpState, next: OpState): OpState {
    if Held(s, t) && s.op == expected then next else s.op
  }

  function DoClaim(s: State, t: Token): State {
    if t !in s.workers || s.workers[t].done || !s.workers[t].phase.Pending? then s
    else
      var w := s.workers[t];
      var won := Held(s, t) && s.op == OpState(Pending, w.step);
      s.(op := Cas(s, t, OpState(Pending, w.step), OpState(Running, w.step)),
         workers := s.workers[t := if won then w.(phase := Running) else w.(done := true)])
  }

  predicate MayAdvance(s: State, t: Token) {
    t in s.workers && !s.workers[t].done && s.workers[t].phase.Running? && Leave(s.cfg, s.workers[t].step) <= s.workers[t].facts
  }

  function DoAdvance(s: State, t: Token, phase: Phase, step: StepName): State {
    if !MayAdvance(s, t) then s
    else
      var w := s.workers[t];
      var ok := AcceptsOn(s.cfg.path, Running, w.step, phase, step) && !phase.Failed?;
      s.(op := if ok then Cas(s, t, OpState(Running, w.step), OpState(phase, step)) else s.op,
         workers := s.workers[t := w.(done := true)])
  }

  function DoFail(s: State, t: Token): State {
    if t !in s.workers || !ActivePhase(s.op.phase) then s
    else s.(op := Cas(s, t, s.op, OpState(Failed, Complete)), workers := s.workers[t := s.workers[t].(done := true)])
  }

  function DoRetry(s: State, t: Token, phase: Phase, step: StepName): State {
    if t !in s.workers then s
    else
      s.(op := if ActivePhase(phase) then Cas(s, t, OpState(phase, step), OpState(Pending, step)) else s.op,
         workers := s.workers[t := s.workers[t].(done := true)])
  }

  /** One move; a move that its mover may not make changes nothing. */
  function Step(s: State, m: Move): State {
    match m
    case Grant(t) => s.(lease := DoGrant(s.lease, t))
    case Expire => s.(lease := s.lease.(holder := None))
    case Supersede => s.(lease := s.lease.(current := false))
    case Load(t) => DoLoad(s, t)
    case Call(t, p, r) => DoCall(s, t, p, r)
    case Claim(t) => DoClaim(s, t)
    case Advance(t, phase, step) => DoAdvance(s, t, phase, step)
    case Fail(t) => DoFail(s, t)
    case Retry(t, phase, step) => DoRetry(s, t, phase, step)
  }

  function Run(s: State, moves: seq<Move>): State {
    if moves == [] then s else Step(Run(s, moves[..|moves| - 1]), moves[|moves| - 1])
  }

  /** A freshly accepted operation. */
  ghost predicate Init(s: State) {
    && GoodPath(s.cfg.path) && Sequenced(s.cfg.path)
    && s.op == OpState(Pending, s.cfg.path[0])
    && s.workers == map[] && s.log == []
    && (s.lease.holder.Some? ==> s.lease.holder.value in s.lease.used)
    && (s.cfg.managedGpu ==> s.cfg.managed)
    && (s.store.scope.seal != "" ==> s.cfg.managedGpu && s.cfg.scopeStore) && DistinctUids(s.store.scope.pods) && s.store.report == None
    && BooksKept(s)
  }

  ghost predicate ConfirmedIn(books: map<string, Reservation>, id: Identity) {
    exists k :: k in books && books[k].owner == id && books[k].state.Confirmed?
  }

  /** The authority holds a confirmed reservation under this operation's identity. */
  ghost predicate ConfirmedAtAuthority(s: State) {
    ConfirmedIn(s.authority, s.cfg.id)
  }

  /** Every row is of this service, keyed by its generation, and only the operation's own generation is its own. */
  ghost predicate RowsKept(cfg: Config, rows: map<int, Reservation>) {
    forall g :: g in rows ==> 1 <= g <= cfg.id.generation && RowKept(cfg, g, rows[g])
  }

  ghost predicate RowKept(cfg: Config, g: int, row: Reservation) {
    && row.id != "" && row.owner.tenant == cfg.id.tenant && row.owner.service == cfg.id.service && row.owner.generation == g
    && (g == cfg.id.generation ==> row.owner == cfg.id)
  }

  /** No earlier row names a reservation of this operation. */
  ghost predicate EarlierNotOwn(cfg: Config, rows: map<int, Reservation>, books: map<string, Reservation>) {
    forall g :: g in rows && g != cfg.id.generation && rows[g].id in books ==> books[rows[g].id].owner != cfg.id
  }

  /** Records agree with the authority: an own row recorded as confirmed is confirmed there, and earlier rows are not this operation's. */
  ghost predicate BooksKept(s: State) {
    && RowsKept(s.cfg, s.store.rows) && EarlierNotOwn(s.cfg, s.store.rows, s.authority) && "" !in s.authority
    && (ReserveQuota in s.cfg.path && OwnConfirmed(s.cfg, s.store.rows) ==> ConfirmedAtAuthority(s))
  }

  ghost predicate OwnConfirmed(cfg: Config, rows: map<int, Reservation>) {
    cfg.id.generation in rows && rows[cfg.id.generation].state.Confirmed?
  }
}
