/** The runner and the executor together: what a reported release says about the cluster. */
module ReleaseGate {
  import opened Text
  import opened ReleaseProof
  import opened RunnerProtocol
  import opened RunnerSafety
  import opened ReleaseSafety
  import PodGate
  import FencedDelete

  // ---- What a worker was shown before it looked ----

  ghost predicate LoadAt(log: seq<Entry>, j: nat, t: Token) {
    j < |log| && log[j].token == t && log[j].port.LoadOperation?
  }

  ghost predicate HasLoad(log: seq<Entry>, t: Token) {
    exists j: nat :: LoadAt(log, j, t)
  }

  /** A call comes after a load of its worker; a load shows at least the Pods recorded at the beginning. */
  ghost predicate AfterLoad(log: seq<Entry>, first: seq<PodRef>, k: nat) {
    k < |log| ==> if log[k].port.LoadOperation? then first <= log[k].reply.pods else HasLoad(log[..k], log[k].token)
  }

  ghost predicate AllAfterLoad(log: seq<Entry>, first: seq<PodRef>) {
    forall k: nat {:trigger AfterLoad(log, first, k)} :: AfterLoad(log, first, k)
  }

  ghost predicate AllLoaded(log: seq<Entry>, tokens: set<Token>) {
    forall t :: t in tokens ==> HasLoad(log, t)
  }

  ghost predicate Shows(s: State, first: seq<PodRef>) {
    first <= s.store.scope.pods && AllLoaded(s.log, s.workers.Keys) && AllAfterLoad(s.log, first)
  }

  lemma HasLoadAppend(log: seq<Entry>, e: Entry, t: Token)
    requires HasLoad(log, t) || (e.token == t && e.port.LoadOperation?)
    ensures HasLoad(log + [e], t)
  {
    if j: nat :| LoadAt(log, j, t) {
      assert LoadAt(log + [e], j, t);
    } else {
      assert LoadAt(log + [e], |log|, t);
    }
  }

  lemma AfterLoadAppend(log: seq<Entry>, e: Entry, first: seq<PodRef>)
    requires AllAfterLoad(log, first) && if e.port.LoadOperation? then first <= e.reply.pods else HasLoad(log, e.token)
    ensures AllAfterLoad(log + [e], first)
  {
    forall k: nat ensures AfterLoad(log + [e], first, k) {
      assert AfterLoad(log, first, k);
      if k <= |log| {
        assert (log + [e])[..k] == log[..k];
        assert log[..|log|] == log;
      }
    }
  }

  lemma EntryKeepsShows(s: State, s': State, e: Entry, first: seq<PodRef>)
    requires Shows(s, first) && s'.log == s.log + [e] && s'.workers.Keys == s.workers.Keys + {e.token}
    requires s.store.scope.pods <= s'.store.scope.pods
    requires if e.port.LoadOperation? then first <= e.reply.pods else e.token in s.workers
    ensures Shows(s', first)
  {
    AfterLoadAppend(s.log, e, first);
    forall t | t in s'.workers.Keys ensures HasLoad(s'.log, t) {
      HasLoadAppend(s.log, e, t);
    }
  }

  lemma CallKeepsShows(s: State, t: Token, p: Port, r: Reply, first: seq<PodRef>)
    requires Shows(s, first) && MayCall(s, t, p, r)
    ensures Shows(DoCall(s, t, p, r), first)
  {
    PodsOnlyGrow(s, Call(t, p, r));
    NoLoadPort(p, s.workers[t].step);
    EntryKeepsShows(s, DoCall(s, t, p, r), Entry(t, s.workers[t].step, p, r, Gain(s.cfg, p, r), Held(s, t)), first);
  }

  lemma StepKeepsShows(s: State, m: Move, first: seq<PodRef>)
    requires Shows(s, first)
    ensures Shows(Step(s, m), first)
  {
    if !Speaks(s, m) {
      OtherMovesAreQuiet(s, m);
    } else if m.Load? {
      EntryKeepsShows(s, Step(s, m), LoadEntry(s, m.token), first);
    } else {
      CallKeepsShows(s, m.token, m.port, m.reply, first);
    }
  }

  lemma {:induction false} RunKeepsShows(s: State, moves: seq<Move>)
    requires Init(s)
    ensures Shows(Run(s, moves), s.store.scope.pods)
  {
    if moves != [] {
      RunKeepsShows(s, moves[..|moves| - 1]);
      StepKeepsShows(Run(s, moves[..|moves| - 1]), moves[|moves| - 1], s.store.scope.pods);
    }
  }

  // ---- What the executor saw ----

  /** What the executor was asked about at one call: the runtime, its bindings, the recorded Pods and the cluster it saw. */
  datatype Sight = Sight(spec: PodGate.Spec, bindings: seq<PodGate.Bound>, recorded: seq<PodRef>, cluster: PodGate.Cluster)

  /** The runtime the executor is given for an operation of this configuration. */
  predicate SpecOf(cfg: Config, spec: PodGate.Spec) {
    spec.tenant == cfg.id.tenant && spec.service == cfg.id.service && spec.gpu == cfg.gpuRequest && spec.managedGpu == (cfg.managed && cfg.gpuRequest)
  }

  ghost predicate SawAbsence(sight: Sight) {
    PodGate.Absent(sight.spec, sight.bindings, sight.recorded, sight.cluster) && PodGate.Truthful(sight.recorded, sight.cluster.pods)
  }

  /** The absence reported at entry `i` is the executor's, asked about this operation's runtime and the Pods its worker was shown. */
  ghost predicate FromExecutor(cfg: Config, log: seq<Entry>, sights: seq<Sight>, i: nat)
    requires |sights| == |log|
  {
    i < |log| && log[i].port.LookAbsent? && !log[i].reply.failed && log[i].reply.observation.absent ==>
      && SpecOf(cfg, sights[i].spec) && SawAbsence(sights[i])
      && forall j: nat :: j < i && LoadAt(log, j, log[i].token) ==> sights[i].recorded == log[j].reply.pods
  }

  ghost predicate AllFromExecutor(cfg: Config, log: seq<Entry>, sights: seq<Sight>) {
    |sights| == |log| && forall i: nat {:trigger FromExecutor(cfg, log, sights, i)} :: FromExecutor(cfg, log, sights, i)
  }

  /** A Pod of the service itself: found by its labels, claimed by nobody else, and not the model download. */
  ghost predicate ServicePod(spec: PodGate.Spec, p: PodGate.PodObject) {
    PodGate.Listed(spec, p) && !PodGate.Elsewhere(spec, p) && !PodGate.Materializer(spec, PodGate.GenerationFor(spec, p), p)
  }

  /** No live Pod of the service, and no live recorded Pod, is left. */
  ghost predicate Vacant(spec: PodGate.Spec, recorded: seq<PodRef>, pods: seq<PodGate.PodObject>) {
    forall p :: p in pods && !PodGate.Terminal(p) ==> !ServicePod(spec, p) && !PodGate.Recorded(recorded, p)
  }

  lemma GateMeansVacant(sight: Sight)
    requires SawAbsence(sight) && PodGate.Gated(sight.spec)
    ensures Vacant(sight.spec, sight.recorded, sight.cluster.pods)
  {
    forall p | p in sight.cluster.pods && !PodGate.Terminal(p) ensures !ServicePod(sight.spec, p) && !PodGate.Recorded(sight.recorded, p) {
      PodGate.HoldsMeaning(sight.spec, sight.recorded, sight.cluster.pods, p);
    }
  }

  /** The load of the worker that made the call of entry `k`. */
  lemma LoadBefore(s: State, moves: seq<Move>, k: nat) returns (loaded: nat)
    requires Init(s) && k < |Run(s, moves).log| && !Run(s, moves).log[k].port.LoadOperation?
    ensures loaded < k && LoadAt(Run(s, moves).log, loaded, Run(s, moves).log[k].token)
    ensures s.store.scope.pods <= Run(s, moves).log[loaded].reply.pods
  {
    var log := Run(s, moves).log;
    RunKeepsShows(s, moves);
    assert AfterLoad(log, s.store.scope.pods, k);
    loaded :| LoadAt(log[..k], loaded, log[k].token);
    assert log[..k][loaded] == log[loaded];
    assert AfterLoad(log, s.store.scope.pods, loaded);
  }

  /**
   A release is reported only after a moment at which one worker was told by the executor, asked about this
   service and every Pod recorded for it (those recorded when the delete was accepted among them), that
   every bound name was vacant; and, where a GPU is requested, no live Pod of the service and no live
   recorded Pod was left then.
   */
  lemma ReportMeansVacated(s: State, moves: seq<Move>, k: nat, sights: seq<Sight>) returns (loaded: nat, seen: nat)
    requires Init(s) && k < |Run(s, moves).log| && Run(s, moves).log[k].port.SendReport?
    requires AllFromExecutor(s.cfg, Run(s, moves).log, sights)
    ensures loaded < seen < k && LoadAt(Run(s, moves).log, loaded, Run(s, moves).log[seen].token) && SawAbsent(Run(s, moves).log, seen)
    ensures s.store.scope.pods <= Run(s, moves).log[loaded].reply.pods == sights[seen].recorded
    ensures forall b :: b in sights[seen].bindings && PodGate.OfRuntime(b) ==> b.key !in sights[seen].cluster.objects
    ensures s.cfg.gpuRequest ==> Vacant(sights[seen].spec, Run(s, moves).log[loaded].reply.pods, sights[seen].cluster.pods)
  {
    var saved, sealed;
    seen, saved, sealed := ReportAfterSeal(s, moves, k);
    loaded := LoadBefore(s, moves, seen);
    assert FromExecutor(s.cfg, Run(s, moves).log, sights, seen);
    if s.cfg.gpuRequest {
      ReportFacts(s, moves, k);
      RunKeepsInv(s, moves);
      GateMeansVacant(sights[seen]);
    }
  }

  // ---- Where the gate is closed ----

  /** Whatever it was asked about, an executor that sees absence sees a vacant cluster. */
  ghost predicate AbsenceIsVacancy(spec: PodGate.Spec) {
    forall sight: Sight :: sight.spec == spec && SawAbsence(sight) ==> Vacant(spec, sight.recorded, sight.cluster.pods)
  }

  /** A runtime without Pods recorded, one vacant name bound, and a live Pod of the service still there. */
  function StillThere(spec: PodGate.Spec): Sight {
    var pod := PodGate.PodObject(spec.namespace, "p", "u", PodGate.Active, Some(spec.tenant), Some(spec.service), None, None, false, None, [], []);
    Sight(spec, [PodGate.Bound(FencedDelete.Key(FencedDelete.Deployment, "", ""), "", 0, "runtime")], [], PodGate.Cluster(map[], [pod]))
  }

  lemma UngatedSeesAbsence(spec: PodGate.Spec)
    requires !PodGate.Gated(spec)
    ensures SawAbsence(StillThere(spec)) && !Vacant(spec, [], StillThere(spec).cluster.pods)
  {
    var sight := StillThere(spec);
    assert sight.bindings[0] in sight.bindings && PodGate.OfRuntime(sight.bindings[0]);
    assert sight.cluster.pods[0] in sight.cluster.pods && ServicePod(spec, sight.cluster.pods[0]);
  }

  /** For a managed service the executor's absence means a vacant cluster exactly when a GPU is requested. */
  lemma GateClosedIffGpu(cfg: Config, spec: PodGate.Spec)
    requires SpecOf(cfg, spec) && cfg.managed
    ensures AbsenceIsVacancy(spec) <==> cfg.gpuRequest
  {
    if cfg.gpuRequest {
      forall sight: Sight | sight.spec == spec && SawAbsence(sight) ensures Vacant(spec, sight.recorded, sight.cluster.pods) {
        GateMeansVacant(sight);
      }
    } else {
      UngatedSeesAbsence(spec);
      assert StillThere(spec).spec == spec;
    }
  }
}
