/**
 The runner itself: one worker's execution of one operation step. Every call may fail, with or without
 effect, and every prefix of what the methods do is itself permitted, so a crash anywhere is covered.
 RunnerRefinement puts such an execution among other workers and shows it to be a run of the protocol.
 */
module Runner {
  import opened Text
  import opened OperationSteps
  import opened ReleaseProof
  import opened RunnerProtocol

  /** Which optional collaborators are configured. */
  datatype Providers = Providers(
    admission: bool, model: bool, gpu: bool, publication: bool, runtime: bool, release: bool,
    modelStore: bool, planStore: bool)

  /** Parts of the loaded operation that only select branches, and the clock. */
  datatype OpData = OpData(topologyValid: bool, planValid: Option<bool>, now: string, timestamp: string -> bool)

  /** The phase and step each step hands over to. */
  function NextOf(kind: Kind, step: StepName): OpState {
    match step
    case Admission => OpState(Running, ReserveQuota)
    case ReserveQuota => OpState(Running, ResolveGpu)
    case ResolveGpu => OpState(Running, ApplyCr)
    case ReleasePreviousQuota => OpState(Running, ReserveQuota)
    case ApplyCr => OpState(Running, MaterializeModel)
    case MaterializeModel => OpState(Running, ApplyRuntime)
    case ApplyRuntime => OpState(Running, ObserveRuntime)
    case ObserveRuntime => OpState(Running, Publish)
    case WithdrawPublication => OpState(Running, DeleteRuntime)
    case DeleteRuntime => OpState(Running, ObserveAbsence)
    case ObserveAbsence =>
      if kind == Delete then OpState(Running, DeleteCr)
      else if kind == Stop then OpState(Running, ReleaseQuota)
      else if kind == UpdateOp || kind == Restart then OpState(Running, ReleasePreviousQuota)
      else OpState(Running, ReserveQuota)
    case DeleteCr => OpState(Running, ReleaseQuota)
    case _ => OpState(Succeeded, Complete)
  }

  lemma AcceptedAt(path: seq<StepName>, i: nat, next: OpState)
    requires GoodPath(path) && i < |path| - 1
    requires if i == |path| - 2 then next == OpState(Succeeded, Complete) else next == OpState(Running, path[i + 1])
    ensures AcceptsOn(path, Running, path[i], next.phase, next.step)
    ensures AcceptsOn(path, Pending, path[i], Running, path[i])
  {
    IndexOf(path, i);
    if i < |path| - 2 {
      IndexOf(path, i + 1);
    }
  }

  lemma NextIsNext(kind: Kind, i: nat)
    requires i < |Path(kind)| - 1
    ensures NextOf(kind, Path(kind)[i]) == if i == |Path(kind)| - 2 then OpState(Succeeded, Complete) else OpState(Running, Path(kind)[i + 1])
  {
  }

  /** No operation can wedge on its own validator: every hand-over, and every claim, is accepted on every kind's path. */
  lemma HandOverAccepted(kind: Kind, step: StepName)
    requires step in Path(kind) && step != Complete
    ensures Accepts(kind, Running, step, NextOf(kind, step).phase, NextOf(kind, step).step)
    ensures Accepts(kind, Pending, step, Running, step)
  {
    PathsAreGood(kind);
    var i :| 0 <= i < |Path(kind)| && Path(kind)[i] == step;
    NextIsNext(kind, i);
    AcceptedAt(Path(kind), i, NextOf(kind, step));
  }

  // ---- What one worker does, as it sees it ----

  /** An act of the worker with its answer; `told` says the worker was told of the success. */
  datatype Act =
    | Told(port: Port, reply: Reply)
    | Claimed(won: bool, told: bool)
    | Handed(next: OpState, took: bool, told: bool)
    | GaveBack(phase: Phase, step: StepName)

  predicate Allowed(cfg: Config, w: Worker, a: Act) {
    match a
    case Told(p, r) => Legal(cfg, w, p)
    case Claimed(won, told) => !w.done && w.phase.Pending? && (told ==> won)
    case Handed(next, took, told) => !w.done && w.phase.Running? && Leave(cfg, w.step) <= w.facts && (told ==> took)
    case GaveBack(phase, step) => true
  }

  function ActOn(cfg: Config, w: Worker, a: Act): Worker {
    match a
    case Told(p, r) => Learned(cfg, w, p, r)
    case Claimed(won, _) => if won then w.(phase := Running) else w.(done := true)
    case Handed(_, _, _) => w.(done := true)
    case GaveBack(_, _) => w.(done := true)
  }

  /** The worker before and after each of its acts. */
  datatype History = History(views: seq<Worker>, acts: seq<Act>)

  ghost predicate Linked(cfg: Config, h: History, i: nat) {
    && i < |h.acts| < |h.views|
    && Allowed(cfg, h.views[i], h.acts[i]) && h.views[i + 1] == ActOn(cfg, h.views[i], h.acts[i])
  }

  /** From `loaded`, allowed act by allowed act, to `w`. */
  ghost predicate Behaved(cfg: Config, loaded: Worker, h: History, w: Worker) {
    && |h.views| == |h.acts| + 1 && h.views[0] == loaded && h.views[|h.acts|] == w
    && forall i: nat {:trigger Linked(cfg, h, i)} :: i < |h.acts| ==> Linked(cfg, h, i)
  }

  ghost function Extend(h: History, a: Act, w: Worker): History {
    History(h.views + [w], h.acts + [a])
  }

  lemma OneMore(cfg: Config, loaded: Worker, h: History, w: Worker, a: Act)
    requires Behaved(cfg, loaded, h, w) && Allowed(cfg, w, a)
    ensures Behaved(cfg, loaded, Extend(h, a, ActOn(cfg, w, a)), ActOn(cfg, w, a))
  {
    var h' := Extend(h, a, ActOn(cfg, w, a));
    forall i: nat | i < |h'.acts| ensures Linked(cfg, h', i) {
      assert i < |h.acts| ==> Linked(cfg, h, i);
    }
  }

  ghost function Prefix(h: History, n: nat): History
    requires n < |h.views| == |h.acts| + 1
  {
    History(h.views[..n + 1], h.acts[..n])
  }

  /** A crash leaves a prefix, and every prefix is as well behaved. */
  lemma BehavedUntilCrash(cfg: Config, loaded: Worker, h: History, w: Worker, n: nat)
    requires Behaved(cfg, loaded, h, w) && n <= |h.acts|
    ensures Behaved(cfg, loaded, Prefix(h, n), h.views[n])
  {
    var h' := Prefix(h, n);
    forall i: nat | i < n ensures Linked(cfg, h', i) {
      assert Linked(cfg, h, i);
    }
  }

  /** A reply that gives the worker nothing to stumble over. */
  predicate Fine(cfg: Config, p: Port, r: Reply) {
    && !r.failed && r.yes && r.observation.ready && r.observation.modelKnown && r.observation.modelReady && r.observation.absent
    && (p.GetReservation? || p.Reserve? ==> ValidReservation(cfg, r.reservation))
    && (p.LoadContext? ==> r.text == cfg.id.operation)
    && (p.ResolveEndpoint? ==> r.text != "")
  }

  /** Giving the operation back is not answered. */
  predicate FineAct(cfg: Config, a: Act) {
    match a
    case Told(p, r) => Fine(cfg, p, r)
    case Claimed(_, told) => told
    case Handed(_, _, told) => told
    case GaveBack(_, _) => true
  }

  predicate AllFine(cfg: Config, acts: seq<Act>) {
    forall i {:trigger FineAct(cfg, acts[i])} :: 0 <= i < |acts| ==> FineAct(cfg, acts[i])
  }

  lemma OneMoreFine(cfg: Config, acts: seq<Act>, a: Act)
    ensures AllFine(cfg, acts + [a]) <==> AllFine(cfg, acts) && FineAct(cfg, a)
  {
    var more := acts + [a];
    if AllFine(cfg, more) {
      forall i | 0 <= i < |acts| ensures FineAct(cfg, acts[i]) {
        assert FineAct(cfg, more[i]);
      }
      assert FineAct(cfg, more[|acts|]);
    }
  }

  /** What a load tells the worker about the records it shows. */
  predicate Briefed(cfg: Config, w: Worker) {
    && (QuotaOwned(cfg) && w.step.ReserveQuota? && ValidReservation(cfg, w.record) && w.record.state.Confirmed? ==> {QuotaConfirmed, QuotaKept} <= w.facts)
    && (QuotaConfirmed in w.facts ==> w.record.state.Confirmed?)
    && (w.previous.id == "" ==> PreviousCleared in w.facts) && (w.record.id == "" ==> CurrentCleared in w.facts)
  }

  /** A call changes only what the worker knows. */
  predicate Kept(w: Worker, w': Worker) {
    && w'.phase == w.phase && w'.step == w.step && w'.done == w.done
    && w'.record == w.record && w'.previous == w.previous && w.facts <= w'.facts
  }

  /** A success the worker was told of: its reservation is recorded as confirmed. */
  predicate RecordsConfirmed(cfg: Config, a: Act) {
    a.Told? && a.port.SaveReservation? && !a.reply.failed && ValidReservation(cfg, a.port.r) && a.port.r.state.Confirmed?
  }

  ghost predicate ConfirmedRecorded(cfg: Config, acts: seq<Act>) {
    exists i :: 0 <= i < |acts| && RecordsConfirmed(cfg, acts[i])
  }

  predicate IsScope(a: Act, seal: string, pods: seq<PodRef>) {
    a.Told? && a.port == SaveScope(seal, pods)
  }

  /** A call to the quota authority whose outcome is still to be recorded. */
  predicate Owed(a: Act) {
    a.Told? && (a.port.Confirm? || a.port.ReleasePrevious? || a.port.ReleaseCurrent?)
  }

  /** The worker has the same seal and Pods at hand. */
  predicate SameScope(w: Worker, w': Worker) {
    w'.seal == w.seal && w'.pods == w.pods
  }

  /** The reply brings the reservation the worker goes on with. */
  predicate Brought(p: Port, r: Reply) {
    !r.failed && (p.Reserve? || (p.GetReservation? && r.reservation.id != ""))
  }

  /** What a reply leaves the worker with beside what it learned. */
  predicate Heard(w: Worker, p: Port, r: Reply, w': Worker) {
    && Kept(w, w')
    && w'.seal == (if p.SaveScope? && p.seal != "" then p.seal else w.seal)
    && w'.pods == (if p.LoadScope? && !r.failed then r.pods else w.pods)
    && w'.seen == (if (p.LookReady? || p.LookAbsent?) && !r.failed then r.observation.pods else w.seen)
    && (p.LoadReport? && !r.failed ==> w'.report == r.report)
    && w'.current == (if Brought(p, r) then r.reservation else w.current)
  }

  lemma LearnedKeeps(cfg: Config, w: Worker, p: Port, r: Reply)
    ensures Heard(w, p, r, Learned(cfg, w, p, r))
    ensures forall f {:trigger Teaches(cfg, p, r, f)} :: Teaches(cfg, p, r, f) ==> f in Learned(cfg, w, p, r).facts
  {
    forall f | Teaches(cfg, p, r, f) ensures f in Learned(cfg, w, p, r).facts {
      assert f in Gain(cfg, p, r);
    }
  }

  /** The seal is there and, with these Pods, makes a valid proof. */
  ghost predicate Provable(cfg: Config, timestamp: string -> bool, seal: string, pods: seq<PodRef>) {
    !Blank(seal) && ValidInput(ProofInput(cfg, seal, pods), timestamp)
  }

  /** The clock gives timestamps without blanks around them, and the operation has its identities. */
  ghost predicate Timed(cfg: Config, data: OpData) {
    && data.timestamp(data.now) && !Blank(data.now) && Trim(data.now) == data.now
    && !Blank(cfg.id.tenant) && !Blank(cfg.id.service) && !Blank(cfg.createOperation) && !Blank(cfg.id.operation)
  }

  /** A seal chosen by such a clock proves the release: a managed delete does not wedge on its own seal. */
  lemma OwnSealIsProvable(cfg: Config, data: OpData, pods: seq<PodRef>)
    requires Timed(cfg, data) && ValidPods(pods)
    ensures Provable(cfg, data.timestamp, data.now, pods)
  {
  }

  /** The Pods and the absence of this operation's runtime are recorded. */
  predicate Scoped(cfg: Config) {
    cfg.managedGpu && cfg.scopeStore
  }

  class Attempt {
    const cfg: Config
    const providers: Providers
    const data: OpData
    /** How each act is answered. */
    const replies: nat -> Reply
    var w: Worker
    var calls: nat
    ghost const loaded: Worker
    ghost var history: History
    /** Has every answer so far been fine? */
    ghost var smooth: bool

    ghost predicate Valid()
      reads this
    {
      Behaved(cfg, loaded, history, w) && (smooth ==> AllFine(cfg, history.acts))
    }

    /** This worker is running the given step. */
    ghost predicate At(step: StepName)
      reads this
    {
      Valid() && w.phase.Running? && !w.done && w.step == step
    }

    /** The worker is still at its step with the records it loaded, and has forgotten nothing. */
    twostate predicate Still()
      reads this
    {
      Kept(old(w), w) && (smooth ==> old(smooth)) && old(history).acts <= history.acts
    }

    /** A result of a step: it hands over only to the next step, and only having learned what that takes. */
    ghost predicate Passes(step: StepName, next: Option<OpState>)
      reads this
    {
      next.Some? ==> Leave(cfg, step) <= w.facts && next.value == NextOf(cfg.kind, step)
    }

    constructor (cfg: Config, providers: Providers, data: OpData, replies: nat -> Reply, w: Worker)
      ensures Valid() && this.w == w && loaded == w && history == History([w], []) && smooth
      ensures this.cfg == cfg && this.providers == providers && this.data == data && this.replies == replies
    {
      this.cfg, this.providers, this.data, this.replies, this.w, this.calls := cfg, providers, data, replies, w, 0;
      this.loaded, this.history, this.smooth := w, History([w], []), true;
    }

    /** One provider or store call; `hope` is the fact the worker is after. */
    method Ask(p: Port, ghost hope: Fact := Admitted) returns (r: Reply)
      requires Valid() && Legal(cfg, w, p)
      modifies this`w, this`calls, this`history, this`smooth
      ensures Valid() && Heard(old(w), p, r, w) && smooth == (old(smooth) && Fine(cfg, p, r))
      ensures history.acts == old(history).acts + [Told(p, r)] && r == replies(old(calls)) && calls == old(calls) + 1
      ensures Teaches(cfg, p, r, hope) ==> hope in w.facts
      ensures QuotaConfirmed in w.facts ==> QuotaConfirmed in old(w).facts || Teaches(cfg, p, r, QuotaConfirmed)
      ensures forall f {:trigger Teaches(cfg, p, r, f)} :: Teaches(cfg, p, r, f) ==> f in w.facts
    {
      r := replies(calls);
      calls := calls + 1;
      LearnedKeeps(cfg, w, p, r);
      Do(Told(p, r));
    }

    method Do(a: Act)
      requires Valid() && Allowed(cfg, w, a)
      modifies this`w, this`history, this`smooth
      ensures Valid() && w == ActOn(cfg, old(w), a) && history == Extend(old(history), a, w)
      ensures smooth == (old(smooth) && FineAct(cfg, a))
    {
      OneMore(cfg, loaded, history, w, a);
      OneMoreFine(cfg, history.acts, a);
      w := ActOn(cfg, w, a);
      history, smooth := Extend(history, a, w), smooth && FineAct(cfg, a);
    }

    /** Every collaborator is configured and the loaded operation has no defect of its own. */
    ghost predicate Equipped()
      reads this
    {
      && providers.admission && providers.model && providers.gpu && providers.publication && providers.runtime
      && providers.release && providers.modelStore && providers.planStore
      && (cfg.managedGpu ==> cfg.gpuRequest && data.planValid.Some?)
      && data.topologyValid && (data.planValid.Some? ==> data.planValid.value)
      && (QuotaOwned(cfg) ==> ValidReservation(cfg, w.record))
    }

    /** The worker has the reservation it loaded at hand and has not looked it up. */
    ghost predicate Unasked()
      reads this
    {
      w.current == w.record && QuotaLooked !in w.facts
    }

    /** What a load gives the worker. */
    ghost predicate Loaded()
      reads this
    {
      data.now != "" && Briefed(cfg, w) && Looked !in w.facts && Unasked() && (data.planValid.Some? ==> PlanKept in w.facts)
    }

    /** A known step other than the end; a managed release can prove what it reports. */
    ghost predicate Workable(step: StepName)
      reads this
    {
      && step != Complete && !step.UnknownStep?
      && (step.ReleaseQuota? && ManagedDelete(cfg) ==> Provable(cfg, data.timestamp, w.seal, w.pods))
    }

    ghost function LastAct(): Option<Act>
      reads this
    {
      if history.acts == [] then None else Some(history.acts[|history.acts| - 1])
    }

    /** The last call failed. */
    ghost predicate LastFailed()
      reads this
    {
      LastAct().Some? && LastAct().value.Told? && LastAct().value.reply.failed
    }

    /** The last call is not one whose outcome the step owes to the record. */
    ghost predicate Paid()
      reads this
    {
      LastAct().Some? && !Owed(LastAct().value)
    }

    /** The step made no call, or its last call is not one whose outcome it owes to the record. */
    twostate predicate Accounted()
      reads this
    {
      history.acts == old(history).acts || Paid()
    }

    // ---- The steps ----

    method RunAdmission() returns (next: Option<OpState>)
      requires At(Admission)
      modifies this`w, this`calls, this`history, this`smooth
      ensures At(Admission) && Still()
      ensures !providers.admission ==> next.None? && history == old(history)
      ensures Passes(Admission, next) && (smooth && Equipped() ==> next.Some?)
    {
      if !providers.admission {
        return None;
      }
      var r := Ask(Admit, Admitted);
      next := if r.failed then None else Some(OpState(Running, ReserveQuota));
    }

    /** Brings a reservation to the confirmed state at the authority; `None` on any failure. */
    method ConfirmReservation(reservation0: Reservation, known: bool) returns (confirmed: Option<Reservation>)
      requires At(ReserveQuota) && QuotaOwned(cfg) && ValidReservation(cfg, reservation0) && w.current == reservation0
      requires known <==> reservation0.state.Reserved?
      requires QuotaConfirmed !in w.facts
      requires !known ==> ReserveAllowed in w.facts && Open(w.record) && Open(reservation0)
      modifies this`w, this`calls, this`history, this`smooth
      ensures At(ReserveQuota) && Still()
      ensures confirmed.Some? ==> QuotaConfirmed in w.facts && ValidReservation(cfg, confirmed.value) && w.current == confirmed.value
      ensures smooth ==> confirmed.Some?
      ensures confirmed.None? ==> Accounted()
    {
      var reservation := reservation0;
      if !known {
        var reserved := Ask(Reserve(reservation), QuotaReserved);
        if reserved.failed || !ValidReservation(cfg, reserved.reservation) {
          return None;
        }
        reservation := reserved.reservation;
      }
      var r := Ask(Confirm(reservation), QuotaConfirmed);
      if r.failed {
        var _ := Ask(SaveReservation(reservation.(state := Reserved)));
        return None;
      }
      confirmed := Some(reservation);
    }

    /** Records a confirmed reservation. */
    method KeepConfirmed(confirmed: Reservation) returns (ok: bool)
      requires At(ReserveQuota) && QuotaOwned(cfg) && ValidReservation(cfg, confirmed) && confirmed.id == w.current.id
      requires confirmed.state.Confirmed? && QuotaConfirmed in w.facts
      modifies this`w, this`calls, this`history, this`smooth
      ensures At(ReserveQuota) && Still() && (smooth ==> ok) && Paid()
      ensures ok ==> QuotaKept in w.facts && ConfirmedRecorded(cfg, history.acts)
    {
      var saved := Ask(SaveReservation(confirmed), QuotaKept);
      ok := !saved.failed;
      assert ok ==> RecordsConfirmed(cfg, history.acts[|history.acts| - 1]);
    }

    /** Confirms a reservation and records it as confirmed. */
    method ConfirmAndSave(reservation: Reservation) returns (ok: bool)
      requires At(ReserveQuota) && QuotaOwned(cfg) && ValidReservation(cfg, reservation) && w.current == reservation
      requires QuotaConfirmed !in w.facts
      requires !reservation.state.Reserved? ==> ReserveAllowed in w.facts && Open(w.record) && Open(reservation)
      modifies this`w, this`calls, this`history, this`smooth
      ensures At(ReserveQuota) && Still() && (smooth ==> ok) && Accounted()
      ensures ok ==> {QuotaConfirmed, QuotaKept} <= w.facts && ConfirmedRecorded(cfg, history.acts)
    {
      var confirmed := ConfirmReservation(reservation, reservation.state.Reserved?);
      if confirmed.None? {
        return false;
      }
      ok := KeepConfirmed(confirmed.value.(state := Confirmed));
    }

    /** What a lookup of a pending reservation comes to: the record found, if it is this operation's; the pending one, if there is none. */
    function Recovered(pending: Reservation, r: Reply): Option<Reservation> {
      if (r.failed && r.missing) || (!r.failed && r.reservation.id == "") then Some(pending)
      else if !r.failed && r.reservation.owner == cfg.id then Some(r.reservation)
      else None
    }

    /** Looks a pending reservation up at the authority, which may have granted it to an earlier worker. */
    method Recover(pending: Reservation) returns (reservation: Option<Reservation>)
      requires At(ReserveQuota) && QuotaOwned(cfg) && ValidReservation(cfg, pending) && w.record == pending
      requires Open(pending) && Unasked() && QuotaConfirmed !in w.facts
      modifies this`w, this`calls, this`history, this`smooth
      ensures At(ReserveQuota) && Still() && (smooth ==> reservation.Some?) && Accounted()
      ensures reservation.Some? ==> ValidReservation(cfg, reservation.value) && w.current == reservation.value
      ensures reservation.Some? ==> (reservation.value.state.Confirmed? <==> QuotaConfirmed in w.facts)
      ensures exists r :: LastAct() == Some(Told(GetReservation(pending.id), r)) && reservation == Recovered(pending, r)
      ensures reservation.Some? && !reservation.value.state.Confirmed? && !reservation.value.state.Reserved? ==> ReserveAllowed in w.facts
    {
      var found := Ask(GetReservation(pending.id), ReserveAllowed);
      assert Teaches(cfg, GetReservation(pending.id), found, QuotaConfirmed) ==> QuotaConfirmed in w.facts;
      if !found.failed && found.reservation.id != "" {
        return if ValidReservation(cfg, found.reservation) then Some(found.reservation) else None;
      }
      reservation := if found.failed && !found.missing then None else Some(pending);
    }

    /** Brings a reservation that was not loaded as confirmed to be confirmed and recorded so. */
    method Secure(loaded: Reservation) returns (ok: bool)
      requires At(ReserveQuota) && QuotaOwned(cfg) && ValidReservation(cfg, loaded) && w.record == loaded
      requires !loaded.state.Confirmed? && Unasked() && QuotaConfirmed !in w.facts
      modifies this`w, this`calls, this`history, this`smooth
      ensures At(ReserveQuota) && Still() && (smooth ==> ok) && Accounted()
      ensures ok ==> {QuotaConfirmed, QuotaKept} <= w.facts && ConfirmedRecorded(cfg, history.acts)
    {
      var reservation := loaded;
      if !reservation.state.Reserved? {
        var recovered := Recover(reservation);
        if recovered.None? {
          return false;
        }
        reservation := recovered.value;
        if reservation.state.Confirmed? {
          ok := KeepConfirmed(reservation);
          return;
        }
      }
      ok := ConfirmAndSave(reservation);
    }

    /** Recovers, reserves and confirms the quota of an operation that owns it. A confirmed record needs no call; a reserved one is confirmed without another reservation. */
    method RunReserveQuota() returns (next: Option<OpState>)
      requires At(ReserveQuota) && Briefed(cfg, w) && Unasked()
      modifies this`w, this`calls, this`history, this`smooth
      ensures At(ReserveQuota) && Still() && Accounted()
      ensures Passes(ReserveQuota, next) && (smooth && Equipped() ==> next.Some?)
      ensures !QuotaOwned(cfg) ==> next.Some? && history == old(history)
      ensures QuotaOwned(cfg) && !ValidReservation(cfg, w.record) ==> next.None? && history == old(history)
      ensures QuotaOwned(cfg) && ValidReservation(cfg, w.record) && w.record.state.Confirmed? ==> next.Some? && history == old(history)
      ensures next.Some? && QuotaOwned(cfg) ==> w.record.state.Confirmed? || ConfirmedRecorded(cfg, history.acts)
    {
      if cfg.managed || cfg.managedGpu || !cfg.quota {
        return Some(OpState(Running, ResolveGpu));
      }
      var reservation := w.record;
      if !ValidReservation(cfg, reservation) {
        return None;
      }
      if reservation.state.Confirmed? {
        return Some(OpState(Running, ResolveGpu));
      }
      var secured := Secure(reservation);
      next := if secured then Some(OpState(Running, ResolveGpu)) else None;
    }

    /** Resolves a plan, checks it and saves it. */
    method ResolveAndSave() returns (ok: bool)
      requires At(ResolveGpu)
      modifies this`w, this`calls, this`history, this`smooth
      ensures At(ResolveGpu) && Still() && (smooth ==> ok)
      ensures ok ==> PlanKept in w.facts
    {
      var plan := Ask(ResolvePlan, PlanResolved);
      if plan.failed || !plan.yes {
        return false;
      }
      assert PlanResolved in w.facts;
      var r := Ask(SavePlan, PlanKept);
      ok := !r.failed;
    }

    /** The plan is not there and is the runner's to resolve: that of a managed GPU is not. */
    predicate ResolvesPlan() {
      data.planValid.None? && !cfg.managedGpu && providers.gpu && providers.planStore
    }

    method RunResolveGpu() returns (next: Option<OpState>)
      requires At(ResolveGpu) && (data.planValid.Some? ==> PlanKept in w.facts)
      modifies this`w, this`calls, this`history, this`smooth
      ensures At(ResolveGpu) && Still()
      ensures Passes(ResolveGpu, next) && (smooth && Equipped() ==> next.Some?)
      ensures !cfg.gpuRequest ==> (next.Some? <==> !cfg.managedGpu)
      ensures cfg.gpuRequest && next.Some? ==> data.topologyValid && (data.planValid == Some(true) || ResolvesPlan())
      ensures !(cfg.gpuRequest && data.topologyValid && ResolvesPlan()) ==> history == old(history)
    {
      if !cfg.gpuRequest {
        return if cfg.managedGpu then None else Some(OpState(Running, ApplyCr));
      }
      if !data.topologyValid {
        return None;
      }
      if data.planValid.Some? {
        return if data.planValid.value then Some(OpState(Running, ApplyCr)) else None;
      }
      if cfg.managedGpu || !providers.gpu || !providers.planStore {
        return None;
      }
      var kept := ResolveAndSave();
      next := if kept then Some(OpState(Running, ApplyCr)) else None;
    }

    method ReleasePreviousAt() returns (ok: bool)
      requires At(ReleasePreviousQuota) && w.previous.id != ""
      modifies this`w, this`calls, this`history, this`smooth
      ensures At(ReleasePreviousQuota) && Still() && (smooth ==> ok)
      ensures ok ==> PreviousReleased in w.facts
    {
      var r := Ask(ReleasePrevious(w.previous), PreviousReleased);
      ok := !r.failed;
    }

    /** Records how the release of the previous reservation ended. */
    method RecordPrevious(state: ReservationState) returns (ok: bool)
      requires At(ReleasePreviousQuota) && w.previous.id != ""
      requires state.ReleasePending? || (state.Released? && PreviousReleased in w.facts)
      modifies this`w, this`calls, this`history, this`smooth
      ensures At(ReleasePreviousQuota) && Still() && (smooth ==> ok) && Paid()
      ensures ok && state.Released? ==> PreviousCleared in w.facts
    {
      var r := Ask(SavePrevious(w.previous.(state := state)), PreviousCleared);
      ok := !r.failed;
    }

    method RunReleasePreviousQuota() returns (next: Option<OpState>)
      requires At(ReleasePreviousQuota) && Briefed(cfg, w)
      modifies this`w, this`calls, this`history, this`smooth
      ensures At(ReleasePreviousQuota) && Still() && Accounted()
      ensures !QuotaOwned(cfg) || w.previous.id == "" ==> next.Some? && history == old(history)
      ensures Passes(ReleasePreviousQuota, next) && (smooth && Equipped() ==> next.Some?)
    {
      if cfg.managed || cfg.managedGpu || !cfg.quota || w.previous.id == "" {
        return Some(OpState(Running, ReserveQuota));
      }
      var released := ReleasePreviousAt();
      if !released {
        var _ := RecordPrevious(ReleasePending);
        return None;
      }
      var saved := RecordPrevious(Released);
      next := if saved then Some(OpState(Running, ReserveQuota)) else None;
    }

    method RunApplyCr() returns (next: Option<OpState>)
      requires At(ApplyCr)
      modifies this`w, this`calls, this`history, this`smooth
      ensures At(ApplyCr) && Still()
      ensures !providers.runtime ==> next.None? && history == old(history)
      ensures Passes(ApplyCr, next) && (smooth && Equipped() ==> next.Some?)
    {
      if !providers.runtime {
        return None;
      }
      var r := Ask(PutCr, CrApplied);
      next := if r.failed then None else Some(OpState(Running, MaterializeModel));
    }

    /** Marks the model, and then has it made and checked. */
    method PrepareModel() returns (ok: bool)
      requires At(MaterializeModel)
      modifies this`w, this`calls, this`history, this`smooth
      ensures At(MaterializeModel) && Still() && (smooth ==> ok)
      ensures ok ==> ModelReady in w.facts
    {
      var marked := Ask(MarkMaterializing, ModelMarked);
      if marked.failed {
        return false;
      }
      var r := Ask(EnsureModel, ModelReady);
      ok := !r.failed && r.observation.modelKnown && r.observation.modelReady;
    }

    method RunMaterializeModel() returns (next: Option<OpState>)
      requires At(MaterializeModel)
      modifies this`w, this`calls, this`history, this`smooth
      ensures At(MaterializeModel) && Still()
      ensures !providers.model || !providers.modelStore ==> next.None? && history == old(history)
      ensures Passes(MaterializeModel, next) && (smooth && Equipped() ==> next.Some?)
    {
      if !providers.model || !providers.modelStore {
        return None;
      }
      var prepared := PrepareModel();
      if !prepared {
        return None;
      }
      var saved := Ask(SaveModel, ModelSaved);
      assert ModelReady in w.facts;
      next := if saved.failed then None else Some(OpState(Running, ApplyRuntime));
    }

    method RunApplyRuntime() returns (next: Option<OpState>)
      requires At(ApplyRuntime)
      modifies this`w, this`calls, this`history, this`smooth
      ensures At(ApplyRuntime) && Still()
      ensures !providers.runtime ==> next.None? && history == old(history)
      ensures Passes(ApplyRuntime, next) && (smooth && Equipped() ==> next.Some?)
    {
      if !providers.runtime {
        return None;
      }
      var r := Ask(PutRuntime, RuntimeApplied);
      next := if r.failed then None else Some(OpState(Running, ObserveRuntime));
    }

    /** The scope was to be saved with this seal and these Pods. */
    ghost predicate ScopeTold(seal: string, pods: seq<PodRef>)
      reads this
    {
      exists i :: 0 <= i < |history.acts| && IsScope(history.acts[i], seal, pods)
    }

    /** The result of an observation: the Pods it showed are kept in mind, and in the scope if there are none. */
    ghost predicate Seen(o: Observation)
      reads this
    {
      Looked in w.facts && w.seen == o.pods && (o.pods == [] ==> PodsKept in w.facts)
    }

    method ObserveReady() returns (seen: Option<Observation>)
      requires At(ObserveRuntime) && Looked !in w.facts
      modifies this`w, this`calls, this`history, this`smooth
      ensures At(ObserveRuntime) && Still() && (if seen.Some? then Seen(seen.value) else LastFailed())
      ensures seen.Some? && seen.value.ready && seen.value.modelKnown && seen.value.modelReady ==> RuntimeReady in w.facts
      ensures smooth ==> seen.Some? && seen.value.ready && seen.value.modelKnown && seen.value.modelReady
    {
      var r := Ask(LookReady, RuntimeReady);
      assert !r.failed ==> Teaches(cfg, LookReady, r, Looked);
      assert !r.failed && r.observation.pods == [] ==> Teaches(cfg, LookReady, r, PodsKept);
      seen := if r.failed then None else Some(r.observation);
    }

    /** Observes the runtime and saves what was seen, ready or not. */
    method LookForReadiness() returns (seen: Option<Observation>)
      requires At(ObserveRuntime) && Looked !in w.facts
      modifies this`w, this`calls, this`history, this`smooth
      ensures At(ObserveRuntime) && Still()
      ensures seen.Some? ==> ReadySaved in w.facts && Seen(seen.value)
      ensures if seen.None? then LastFailed() else LastAct().Some? && LastAct().value.Told? && LastAct().value.port.SaveReady?
      ensures seen.Some? && seen.value.ready && seen.value.modelKnown && seen.value.modelReady ==> RuntimeReady in w.facts
      ensures smooth ==> seen.Some? && seen.value.ready && seen.value.modelKnown && seen.value.modelReady
    {
      seen := ObserveReady();
      if seen.None? {
        return;
      }
      var saved := Ask(SaveReady, ReadySaved);
      if saved.failed {
        seen := None;
      }
    }

    /** Records the Pods that were seen. */
    method KeepPods() returns (ok: bool)
      requires At(ObserveRuntime) && Looked in w.facts && ReadySaved in w.facts && cfg.managedGpu && cfg.scopeStore
      modifies this`w, this`calls, this`history, this`smooth
      ensures At(ObserveRuntime) && Still() && (smooth ==> ok)
      ensures ok ==> PodsKept in w.facts
      ensures w.seen == old(w).seen && ScopeTold(w.seal, w.seen)
    {
      var scoped := Ask(SaveScope(w.seal, w.seen), PodsKept);
      ok := !scoped.failed;
      assert IsScope(history.acts[|history.acts| - 1], w.seal, w.seen);
    }

    method RunObserveRuntime() returns (next: Option<OpState>)
      requires At(ObserveRuntime) && Looked !in w.facts
      modifies this`w, this`calls, this`history, this`smooth
      ensures At(ObserveRuntime) && Still()
      ensures Scoped(cfg) && w.seen != [] && history.acts != old(history).acts ==> LastFailed() || ScopeTold(w.seal, w.seen)
      ensures next.Some? && (!Scoped(cfg) || w.seen == []) ==> LastAct().Some? && LastAct().value.Told? && LastAct().value.port.SaveReady?
      ensures !providers.runtime ==> next.None? && history == old(history)
      ensures Passes(ObserveRuntime, next) && (smooth && Equipped() ==> next.Some?)
    {
      if !providers.runtime {
        return None;
      }
      var seen := LookForReadiness();
      if seen.None? {
        return None;
      }
      if cfg.managedGpu && |seen.value.pods| > 0 && cfg.scopeStore {
        var kept := KeepPods();
        if !kept {
          return None;
        }
      }
      if !seen.value.ready || !seen.value.modelKnown || !seen.value.modelReady {
        return None;
      }
      next := Some(OpState(Running, Publish));
    }

    /** Saves the intent first, so that a crash before the withdrawal is recovered by the same step. */
    method RequestWithdrawal() returns (ok: bool)
      requires At(WithdrawPublication)
      modifies this`w, this`calls, this`history, this`smooth
      ensures At(WithdrawPublication) && Still() && (smooth ==> ok)
      ensures ok ==> {WithdrawIntent, WithdrawRequested} <= w.facts
    {
      var intent := Ask(SaveWithdrawing, WithdrawIntent);
      if intent.failed {
        return false;
      }
      var r := Ask(Withdraw, WithdrawRequested);
      ok := !r.failed;
    }

    method WithdrawAndConfirm() returns (confirmed: bool)
      requires At(WithdrawPublication)
      modifies this`w, this`calls, this`history, this`smooth
      ensures At(WithdrawPublication) && Still()
      ensures confirmed ==> WithdrawConfirmed in w.facts
      ensures smooth ==> confirmed
    {
      var requested := RequestWithdrawal();
      if !requested {
        return false;
      }
      var r := Ask(ConfirmWithdrawn, WithdrawConfirmed);
      confirmed := !r.failed && r.yes;
    }

    method RunWithdrawPublication() returns (next: Option<OpState>)
      requires At(WithdrawPublication)
      modifies this`w, this`calls, this`history, this`smooth
      ensures At(WithdrawPublication) && Still()
      ensures !providers.publication ==> next.None? && history == old(history)
      ensures Passes(WithdrawPublication, next) && (smooth && Equipped() ==> next.Some?)
    {
      if !providers.publication {
        return None;
      }
      var confirmed := WithdrawAndConfirm();
      if !confirmed {
        return None;
      }
      var saved := Ask(SaveWithdrawn, WithdrawSaved);
      next := if saved.failed then None else Some(OpState(Running, DeleteRuntime));
    }

    method RunDeleteRuntime() returns (next: Option<OpState>)
      requires At(DeleteRuntime)
      modifies this`w, this`calls, this`history, this`smooth
      ensures At(DeleteRuntime) && Still()
      ensures !providers.runtime ==> next.None? && history == old(history)
      ensures Passes(DeleteRuntime, next) && (smooth && Equipped() ==> next.Some?)
    {
      if !providers.runtime {
        return None;
      }
      var r := Ask(RequestDelete, DeleteAccepted);
      next := if r.failed then None else Some(OpState(Running, ObserveAbsence));
    }

    lemma MayPutScope(seal: string)
      requires At(ObserveAbsence) && cfg.managedGpu && cfg.scopeStore && {Looked, AbsenceSaved} <= w.facts
      requires seal == w.seal || (w.seal == "" && seal != "" && AbsenceObserved in w.facts)
      ensures Legal(cfg, w, SaveScope(seal, w.seen))
    {
    }

    /** Saves the scope with a seal and the Pods that were seen. */
    method PutScope(seal: string) returns (ok: bool)
      requires At(ObserveAbsence) && cfg.managedGpu && cfg.scopeStore && {Looked, AbsenceSaved} <= w.facts
      requires seal == w.seal || (w.seal == "" && seal != "" && AbsenceObserved in w.facts)
      modifies this`w, this`calls, this`history, this`smooth
      ensures At(ObserveAbsence) && Still() && (smooth ==> ok)
      ensures ok ==> PodsKept in w.facts && (seal != "" ==> Sealed in w.facts)
      ensures w.seal == seal && w.pods == old(w).pods && w.seen == old(w).seen
      ensures LastAct().Some? && IsScope(LastAct().value, seal, w.seen)
    {
      MayPutScope(seal);
      var r := Ask(SaveScope(seal, w.seen), Sealed);
      assert !r.failed ==> Teaches(cfg, SaveScope(seal, w.seen), r, PodsKept);
      ok := !r.failed;
    }

    /** Saves the Pod scope of a managed GPU; the first observed absence seals it with the current time. */
    method SaveRelease(absent: bool) returns (ok: bool)
      requires At(ObserveAbsence) && cfg.managedGpu && cfg.scopeStore && data.now != "" && Looked in w.facts && AbsenceSaved in w.facts
      requires absent ==> AbsenceObserved in w.facts
      modifies this`w, this`calls, this`history, this`smooth
      ensures At(ObserveAbsence) && Still() && (smooth ==> ok)
      ensures ok ==> PodsKept in w.facts && (absent ==> Sealed in w.facts)
      ensures w.seal == (if absent && old(w).seal == "" then data.now else old(w).seal) && w.pods == old(w).pods
      ensures w.seen == old(w).seen && ScopeTold(w.seal, w.seen)
    {
      var seal := w.seal;
      if absent && seal == "" {
        seal := data.now;
      }
      ok := PutScope(seal);
    }

    method LookForAbsence() returns (seen: Option<Observation>)
      requires At(ObserveAbsence) && Looked !in w.facts
      modifies this`w, this`calls, this`history, this`smooth
      ensures At(ObserveAbsence) && Still()
      ensures SameScope(old(w), w) && (seen.None? ==> LastFailed())
      ensures seen.Some? ==> AbsenceSaved in w.facts && Seen(seen.value) && (seen.value.absent ==> AbsenceObserved in w.facts)
      ensures smooth ==> seen.Some? && seen.value.absent
    {
      seen := ObserveAbsent();
      if seen.None? {
        return;
      }
      var saved := Ask(SaveAbsent, AbsenceSaved);
      if saved.failed {
        seen := None;
      }
    }

    method ObserveAbsent() returns (seen: Option<Observation>)
      requires At(ObserveAbsence) && Looked !in w.facts
      modifies this`w, this`calls, this`history, this`smooth
      ensures At(ObserveAbsence) && Still() && SameScope(old(w), w) && (seen.None? ==> LastFailed())
      ensures seen.Some? ==> Seen(seen.value) && (seen.value.absent ==> AbsenceObserved in w.facts)
      ensures smooth ==> seen.Some? && seen.value.absent
    {
      var r := Ask(LookAbsent, AbsenceObserved);
      assert !r.failed ==> Teaches(cfg, LookAbsent, r, Looked);
      assert !r.failed && r.observation.pods == [] ==> Teaches(cfg, LookAbsent, r, PodsKept);
      seen := if r.failed then None else Some(r.observation);
    }

    /** The last call read the recorded Pods. */
    ghost predicate Reloaded()
      reads this
    {
      LastAct().Some? && LastAct().value.Told? && LastAct().value.port.LoadScope? && !LastAct().value.reply.failed && w.pods == LastAct().value.reply.pods
    }

    /** Where no Pods were loaded with the operation, they are loaded again; only a failure matters here. */
    method ReloadScope() returns (ok: bool)
      requires At(ObserveAbsence)
      modifies this`w, this`calls, this`history, this`smooth
      ensures At(ObserveAbsence) && Still() && (smooth ==> ok) && w.seal == old(w).seal && w.seen == old(w).seen
      ensures ok && Scoped(cfg) && old(w).pods == [] ==> Reloaded()
      ensures if Scoped(cfg) && old(w).pods == [] then exists r :: history.acts == old(history).acts + [Told(LoadScope, r)] else history == old(history)
    {
      if !cfg.managedGpu || |w.pods| != 0 || !cfg.scopeStore {
        return true;
      }
      var loadedPods := Ask(LoadScope);
      ok := !loadedPods.failed;
    }

    /** Saves the scope where there is something to save, and reads it again. */
    method KeepScope(o: Observation) returns (ok: bool)
      requires At(ObserveAbsence) && data.now != "" && Seen(o) && AbsenceSaved in w.facts && (o.absent ==> AbsenceObserved in w.facts)
      modifies this`w, this`calls, this`history, this`smooth
      ensures At(ObserveAbsence) && Still() && (smooth ==> ok) && w.seen == old(w).seen
      ensures w.seal == if Scoped(cfg) && o.absent && old(w).seal == "" then data.now else old(w).seal
      ensures Scoped(cfg) && (o.pods != [] || o.absent) ==> ScopeTold(w.seal, w.seen) && (ok ==> PodsKept in w.facts)
      ensures !Scoped(cfg) || (o.pods == [] && !o.absent) ==>
                history.acts == old(history).acts || exists r :: history.acts == old(history).acts + [Told(LoadScope, r)]
      ensures ok && Scoped(cfg) ==> (o.absent ==> Sealed in w.facts) && (old(w).pods == [] ==> Reloaded())
    {
      if cfg.managedGpu && (|o.pods| > 0 || o.absent) && cfg.scopeStore {
        ok := SaveRelease(o.absent);
        if !ok {
          return;
        }
      }
      ok := ReloadScope();
    }

    method RunObserveAbsence() returns (next: Option<OpState>)
      requires At(ObserveAbsence) && Looked !in w.facts && data.now != ""
      modifies this`w, this`calls, this`history, this`smooth
      ensures At(ObserveAbsence) && Still()
      ensures !providers.runtime ==> next.None? && history == old(history)
      ensures Passes(ObserveAbsence, next) && (smooth && Equipped() ==> next.Some?)
      ensures Scoped(cfg) && (w.seen != [] || next.Some?) && history.acts != old(history).acts ==> LastFailed() || ScopeTold(w.seal, w.seen)
      ensures next.Some? && Scoped(cfg) && old(w).pods == [] ==> Reloaded()
      ensures next.Some? ==> w.seal == if Scoped(cfg) && old(w).seal == "" then data.now else old(w).seal
    {
      if !providers.runtime {
        return None;
      }
      var seen := LookForAbsence();
      if seen.None? {
        return None;
      }
      var kept := KeepScope(seen.value);
      if !kept || !seen.value.absent {
        return None;
      }
      var step := ReserveQuota;
      if cfg.kind == UpdateOp || cfg.kind == Restart {
        step := ReleasePreviousQuota;
      }
      if cfg.kind == Stop || cfg.kind == Delete {
        step := ReleaseQuota;
      }
      if cfg.kind == Delete {
        step := DeleteCr;
      }
      next := Some(OpState(Running, step));
    }

    method RemoveCustomResource() returns (ok: bool)
      requires At(DeleteCr)
      modifies this`w, this`calls, this`history, this`smooth
      ensures At(DeleteCr) && Still() && (smooth ==> ok)
      ensures ok ==> CrRemoved in w.facts
    {
      var removed := Ask(RemoveCr, CrRemoved);
      ok := !removed.failed;
    }

    method RunDeleteCr() returns (next: Option<OpState>)
      requires At(DeleteCr)
      modifies this`w, this`calls, this`history, this`smooth
      ensures At(DeleteCr) && Still()
      ensures !providers.runtime || !providers.model ==> next.None? && history == old(history)
      ensures Passes(DeleteCr, next) && (smooth && Equipped() ==> next.Some?)
    {
      if !providers.runtime || !providers.model {
        return None;
      }
      var removed := RemoveCustomResource();
      if !removed {
        return None;
      }
      var cleaned := Ask(CleanupModel, ModelCleaned);
      assert CrRemoved in w.facts;
      next := if cleaned.failed then None else Some(OpState(Running, ReleaseQuota));
    }

    method RequestExposure() returns (ok: bool)
      requires At(Publish)
      modifies this`w, this`calls, this`history, this`smooth
      ensures At(Publish) && Still() && (smooth ==> ok)
      ensures ok ==> {PublishIntent, ExposeRequested} <= w.facts
    {
      var intent := Ask(SavePublishing, PublishIntent);
      if intent.failed {
        return false;
      }
      var r := Ask(Expose, ExposeRequested);
      ok := !r.failed;
    }

    method ExposeAndConfirm() returns (confirmed: bool)
      requires At(Publish)
      modifies this`w, this`calls, this`history, this`smooth
      ensures At(Publish) && Still()
      ensures confirmed ==> PublishConfirmed in w.facts
      ensures smooth ==> confirmed
    {
      var requested := RequestExposure();
      if !requested {
        return false;
      }
      var r := Ask(ConfirmPublished, PublishConfirmed);
      confirmed := !r.failed && r.yes;
    }

    /** Where the publication can name its endpoint, the endpoint must not be empty. */
    method CheckEndpoint() returns (ok: bool)
      requires At(Publish) && PublishConfirmed in w.facts
      modifies this`w, this`calls, this`history, this`smooth
      ensures At(Publish) && Still() && (smooth ==> ok)
      ensures ok && cfg.endpoints ==> EndpointKnown in w.facts
    {
      if !cfg.endpoints {
        return true;
      }
      var endpoint := Ask(ResolveEndpoint, EndpointKnown);
      ok := !endpoint.failed && endpoint.text != "";
    }

    method SaveExposed() returns (ok: bool)
      requires At(Publish) && PublishConfirmed in w.facts && (cfg.endpoints ==> EndpointKnown in w.facts)
      modifies this`w, this`calls, this`history, this`smooth
      ensures At(Publish) && Still() && (smooth ==> ok)
      ensures ok ==> PublishConfirmed in w.facts && PublishSaved in w.facts
    {
      var saved := Ask(SavePublished, PublishSaved);
      ok := !saved.failed;
    }

    method RunPublish() returns (next: Option<OpState>)
      requires At(Publish)
      modifies this`w, this`calls, this`history, this`smooth
      ensures At(Publish) && Still()
      ensures !providers.publication ==> next.None? && history == old(history)
      ensures Passes(Publish, next) && (smooth && Equipped() ==> next.Some?)
    {
      if !providers.publication {
        return None;
      }
      var confirmed := ExposeAndConfirm();
      if !confirmed {
        return None;
      }
      var resolved := CheckEndpoint();
      if !resolved {
        return None;
      }
      var saved := SaveExposed();
      next := if saved then Some(OpState(Succeeded, Complete)) else None;
    }

    // ---- Releasing the quota ----

    method Prove() returns (proof: Option<Proof>)
      ensures proof.Some? <==> Provable(cfg, data.timestamp, w.seal, w.pods)
      ensures proof.Some? ==> !Blank(w.seal) && Attests(cfg, w, proof.value)
    {
      if Blank(w.seal) {
        return None;
      }
      proof := NewReleaseProof(ProofInput(cfg, w.seal, w.pods), data.timestamp);
    }

    method KeepReport(proof: Proof) returns (ok: bool)
      requires At(ReleaseQuota) && ManagedDelete(cfg) && cfg.reportStore && {ContextMatched, NoReport} <= w.facts
      requires !Blank(w.seal) && Attests(cfg, w, proof)
      modifies this`w, this`calls, this`history, this`smooth
      ensures At(ReleaseQuota) && Still() && SameScope(old(w), w)
      ensures (ok ==> ReportDurable in w.facts) && (smooth ==> ok)
    {
      var saved := Ask(SaveReport(Report(proof, Canonical(cfg))), ReportDurable);
      ok := !saved.failed;
    }

    /** Makes the report durable where it can be, and sends it. */
    method SendProof(proof: Proof) returns (ok: bool)
      requires At(ReleaseQuota) && ManagedDelete(cfg) && ContextMatched in w.facts && (cfg.reportStore ==> NoReport in w.facts)
      requires !Blank(w.seal) && Attests(cfg, w, proof)
      modifies this`w, this`calls, this`history, this`smooth
      ensures At(ReleaseQuota) && Still() && SameScope(old(w), w)
      ensures (ok ==> ReportSent in w.facts) && (smooth ==> ok)
    {
      if cfg.reportStore {
        ok := KeepReport(proof);
        if !ok {
          return;
        }
      }
      var sent := Ask(SendReport(Canonical(cfg)), ReportSent);
      ok := !sent.failed;
    }

    /** The persisted refund context must name this delete operation. */
    method CheckContext() returns (ok: bool)
      requires At(ReleaseQuota) && ManagedDelete(cfg)
      modifies this`w, this`calls, this`history, this`smooth
      ensures At(ReleaseQuota) && Still() && SameScope(old(w), w)
      ensures ok ==> !Blank(cfg.createOperation) && ContextMatched in w.facts
      ensures smooth && !Blank(cfg.createOperation) && cfg.id.operation != "" ==> ok
    {
      if Blank(cfg.createOperation) {
        return false;
      }
      ok := MatchContext();
    }

    method MatchContext() returns (ok: bool)
      requires At(ReleaseQuota) && ManagedDelete(cfg)
      modifies this`w, this`calls, this`history, this`smooth
      ensures At(ReleaseQuota) && Still() && SameScope(old(w), w)
      ensures (ok ==> ContextMatched in w.facts) && (smooth && cfg.id.operation != "" ==> ok)
    {
      var context := Ask(LoadContext, ContextMatched);
      ok := !context.failed && context.text != "" && context.text == cfg.id.operation;
    }

    /** Looks for a report that was saved before; the outer `None` is an error. */
    method FindReport() returns (found: Option<Option<Notification>>)
      requires At(ReleaseQuota) && ManagedDelete(cfg) && cfg.reportStore && ContextMatched in w.facts
      modifies this`w, this`calls, this`history, this`smooth
      ensures At(ReleaseQuota) && Still() && SameScope(old(w), w) && (smooth ==> found.Some?)
      ensures found.Some? ==> w.report == found.value && (if found.value.Some? then ReportDurable else NoReport) in w.facts
    {
      var saved := Ask(LoadReport, ReportDurable);
      assert !saved.failed && saved.report.None? ==> Teaches(cfg, LoadReport, saved, NoReport);
      found := if saved.failed then None else Some(saved.report);
    }

    /** Sends a report that was saved before, exactly as it was saved; `None` when there is none. */
    method SendSaved() returns (outcome: Option<bool>)
      requires At(ReleaseQuota) && ManagedDelete(cfg) && cfg.reportStore && ContextMatched in w.facts
      modifies this`w, this`calls, this`history, this`smooth
      ensures At(ReleaseQuota) && Still() && SameScope(old(w), w)
      ensures outcome == Some(true) ==> ReportSent in w.facts
      ensures outcome.None? ==> NoReport in w.facts
      ensures smooth ==> outcome != Some(false)
    {
      var found := FindReport();
      if found.None? {
        return Some(false);
      }
      if found.value.None? {
        return None;
      }
      var sent := Ask(SendReport(found.value.value), ReportSent);
      outcome := Some(!sent.failed);
    }

    /** The release coordinator: a report already saved is sent again as it is; otherwise the seal must prove one. */
    method ReleaseManagedGpu() returns (ok: bool)
      requires At(ReleaseQuota) && ManagedDelete(cfg)
      modifies this`w, this`calls, this`history, this`smooth
      ensures At(ReleaseQuota) && Still() && SameScope(old(w), w)
      ensures ok ==> ReportSent in w.facts
      ensures smooth && Provable(cfg, data.timestamp, w.seal, w.pods) ==> ok
    {
      var named := CheckContext();
      if !named {
        return false;
      }
      if cfg.reportStore {
        var outcome := SendSaved();
        if outcome.Some? {
          return outcome.value;
        }
      }
      var proof := Prove();
      if proof.None? {
        return false;
      }
      ok := SendProof(proof.value);
    }

    method ReleaseCurrentAt() returns (ok: bool)
      requires At(ReleaseQuota) && w.record.id != ""
      modifies this`w, this`calls, this`history, this`smooth
      ensures At(ReleaseQuota) && Still() && (smooth ==> ok)
      ensures ok ==> CurrentReleased in w.facts
    {
      var r := Ask(ReleaseCurrent(w.record), CurrentReleased);
      ok := !r.failed;
    }

    /** Records how the release of the reservation ended. */
    method RecordRelease(state: ReservationState) returns (ok: bool)
      requires At(ReleaseQuota) && w.record.id != ""
      requires state.ReleasePending? || (state.Released? && (CurrentReleased in w.facts || Cancellable(cfg, w.record)))
      modifies this`w, this`calls, this`history, this`smooth
      ensures At(ReleaseQuota) && Still() && (smooth ==> ok) && Paid()
      ensures ok && state.Released? ==> CurrentCleared in w.facts
      ensures exists r :: history.acts == old(history).acts + [Told(SaveReleased(w.record.(state := state)), r)]
    {
      var r := Ask(SaveReleased(w.record.(state := state)), CurrentCleared);
      ok := !r.failed;
    }

    /** The only call of the step records the placeholder as released. */
    twostate predicate Cancels()
      reads this
    {
      exists r :: history.acts == old(history).acts + [Told(SaveReleased(w.record.(state := Released)), r)]
    }

    /** Cancels a placeholder locally, or releases the reservation at the authority and records the outcome. */
    method ReleaseReservation() returns (ok: bool)
      requires At(ReleaseQuota) && w.record.id != ""
      modifies this`w, this`calls, this`history, this`smooth
      ensures At(ReleaseQuota) && Still() && (smooth ==> ok) && Accounted()
      ensures ok && cfg.quota ==> CurrentCleared in w.facts
      ensures Cancellable(cfg, w.record) ==> Cancels()
    {
      if cfg.kind == Delete && w.record.state.Placeholder? && PENDING_PREFIX <= w.record.id {
        ok := RecordRelease(Released);
        return;
      }
      if !cfg.quota {
        return true;
      }
      var released := ReleaseCurrentAt();
      if !released {
        var _ := RecordRelease(ReleasePending);
        return false;
      }
      ok := RecordRelease(Released);
    }

    /** The first call of the step reads the recorded Pods, which it goes on with. */
    twostate predicate FirstReloads()
      reads this
    {
      var n := |old(history).acts|;
      n < |history.acts| && history.acts[n].Told? && history.acts[n].port.LoadScope? && !history.acts[n].reply.failed && w.pods == history.acts[n].reply.pods
    }

    /** A managed GPU is given back through the release report, any other quota through the authority. */
    method RunReleaseQuota() returns (next: Option<OpState>)
      requires At(ReleaseQuota) && Briefed(cfg, w)
      modifies this`w, this`calls, this`history, this`smooth
      ensures At(ReleaseQuota) && Still() && (ManagedDelete(cfg) || Accounted())
      ensures !ManagedDelete(cfg) && (cfg.managed || cfg.managedGpu || w.record.id == "") ==> next.Some? && history == old(history)
      ensures !cfg.managed && !cfg.managedGpu && w.record.id != "" && Cancellable(cfg, w.record) ==> Cancels()
      ensures next.Some? && ManagedDelete(cfg) && cfg.scopeStore && old(w).pods == [] ==> FirstReloads()
      ensures ManagedDelete(cfg) && !providers.release ==> next.None? && history == old(history)
      ensures Passes(ReleaseQuota, next) && (smooth && Equipped() && Workable(ReleaseQuota) ==> next.Some?)
    {
      if cfg.managedGpu && cfg.kind == Delete {
        if !providers.release {
          return None;
        }
        if |w.pods| == 0 && cfg.scopeStore {
          var loadedPods := Ask(LoadScope);
          if loadedPods.failed {
            return None;
          }
        }
        var sent := ReleaseManagedGpu();
        return if sent then Some(OpState(Succeeded, Complete)) else None;
      }
      if cfg.managed || cfg.managedGpu || w.record.id == "" {
        return Some(OpState(Succeeded, Complete));
      }
      var ok := ReleaseReservation();
      next := if ok then Some(OpState(Succeeded, Complete)) else None;
    }

    // ---- One execution ----

    /** Runs the current step; a step the runner does not know is an error. */
    method RunStep() returns (next: Option<OpState>)
      requires At(w.step) && Loaded()
      modifies this`w, this`calls, this`history, this`smooth
      ensures At(w.step) && Still() && Passes(w.step, next)
      ensures smooth && Equipped() && Workable(w.step) ==> next.Some?
    {
      match w.step {
        case Admission => next := RunAdmission();
        case ReserveQuota => next := RunReserveQuota();
        case ResolveGpu => next := RunResolveGpu();
        case ReleasePreviousQuota => next := RunReleasePreviousQuota();
        case ApplyCr => next := RunApplyCr();
        case MaterializeModel => next := RunMaterializeModel();
        case ApplyRuntime => next := RunApplyRuntime();
        case ObserveRuntime => next := RunObserveRuntime();
        case WithdrawPublication => next := RunWithdrawPublication();
        case DeleteRuntime => next := RunDeleteRuntime();
        case ObserveAbsence => next := RunObserveAbsence();
        case DeleteCr => next := RunDeleteCr();
        case Publish => next := RunPublish();
        case ReleaseQuota => next := RunReleaseQuota();
        case _ => next := None;
      }
    }

    /** The first new act was a claim, and the worker was told that it won. */
    twostate predicate ClaimTold()
      reads this
    {
      var n := |old(history).acts|; n < |history.acts| && history.acts[n] == Claimed(true, true)
    }

    /** The store's conditional write from pending to running. */
    method ClaimStep() returns (ok: bool)
      requires Valid() && !w.done && w.phase.Pending?
      modifies this`w, this`calls, this`history, this`smooth
      ensures Valid() && Loss(ok) && (ok ==> w == old(w).(phase := Running))
      ensures calls == old(calls) + 1 && (ok <==> !replies(old(calls)).failed)
      ensures |history.acts| == |old(history).acts| + 1 && old(history).acts <= history.acts && (ok <==> ClaimTold())
    {
      var r := replies(calls);
      calls := calls + 1;
      Do(Claimed(!r.failed || r.applied, !r.failed));
      ok := !r.failed;
    }

    /** The store's conditional write to the next step. */
    method HandOver(next: OpState) returns (ok: bool)
      requires Valid() && !w.done && w.phase.Running? && Leave(cfg, w.step) <= w.facts
      modifies this`w, this`calls, this`history, this`smooth
      ensures Valid() && Loss(ok) && (ok ==> LastAct() == Some(Handed(next, true, true)))
      ensures !ok ==> exists took :: LastAct() == Some(Handed(next, took, false))
      ensures w == old(w).(done := true) && old(history).acts <= history.acts
      ensures calls == old(calls) + 1 && (ok <==> !replies(old(calls)).failed)
    {
      var r := replies(calls);
      calls := calls + 1;
      Do(Handed(next, !r.failed || r.applied, !r.failed));
      ok := !r.failed;
    }

    /** Only a failed write spoils a smooth execution. */
    twostate predicate Loss(ok: bool)
      reads this
    {
      smooth == (old(smooth) && ok)
    }

    /**
     Executes one step of the operation: claims it if it is pending, runs the step, and hands over. On
     any failure the operation goes back to pending at the same step.
     */
    method Execute() returns (ok: bool)
      requires Valid() && Loaded() && !w.done
      modifies this`w, this`calls, this`history, this`smooth
      ensures Valid()
      ensures !ActivePhase(old(w).phase) ==> history == old(history) && (ok <==> old(w).phase.Succeeded? || old(w).phase.Failed?)
      ensures ActivePhase(old(w).phase) && ok ==> LastAct() == Some(Handed(NextOf(cfg.kind, old(w).step), true, true))
      ensures ActivePhase(old(w).phase) && !ok ==>
                LastAct() == Some(GaveBack(if old(w).phase.Running? || ClaimTold() then Running else Pending, old(w).step))
      ensures ActivePhase(old(w).phase) && smooth && old(Equipped()) && Workable(old(w).step) ==> ok
    {
      if w.phase.Succeeded? || w.phase.Failed? {
        return true;
      }
      if !w.phase.Pending? && !w.phase.Running? {
        return false;
      }
      var phase, step := w.phase, w.step;
      ok := true;
      if phase.Pending? {
        ok := ClaimStep();
      }
      if ok {
        phase := Running;
        var next := RunStep();
        ok := false;
        if next.Some? {
          ok := HandOver(next.value);
        }
      }
      if !ok {
        Do(GaveBack(phase, step));
      }
    }
  }
}
