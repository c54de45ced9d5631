/**
 Readiness of a leader-worker set. Group readiness is not enough, so ready worker Pods are counted by
 group and worker index; the counts are 32-bit.
 */
module WorkerReadiness {
  import opened Text
  import opened Sets

  const MAX_INT32 := 0x7fff_ffff

  predicate Int32(x: int) {
    -MAX_INT32 - 1 <= x <= MAX_INT32
  }

  /** 32-bit arithmetic wraps around. */
  function Wrap(x: int): (r: int)
    ensures Int32(r) && (Int32(x) ==> r == x) && (r - x) % 0x1_0000_0000 == 0
  {
    (x + 0x8000_0000) % 0x1_0000_0000 - 0x8000_0000
  }

  datatype Condition = Condition(isReady: bool, isTrue: bool)

  /** A listed Pod; an index label that is missing or not a 32-bit number is `None`. */
  datatype Pod = Pod(terminating: bool, running: bool, worker: Option<int>, group: Option<int>, conditions: seq<Condition>)

  datatype Spec = Spec(replicas: int, workers: int)

  datatype Slot = Slot(group: int, worker: int)

  /** The live object: its spec as the server has it, and its reported status. */
  datatype LeaderWorkerSet = LeaderWorkerSet(
    replicas: Option<int>, size: Option<int>, generation: int, observedGeneration: int, readyReplicas: int, updatedReplicas: int)

  datatype Phase = Ready | Degraded | Pending

  predicate HasSlot(spec: Spec, s: Slot) {
    0 <= s.group < spec.replicas && 1 <= s.worker <= spec.workers
  }

  /** The Pod runs, is ready and stays, in this slot. */
  predicate Serves(p: Pod, s: Slot) {
    !p.terminating && p.running && p.worker == Some(s.worker) && p.group == Some(s.group) && IsReady(p)
  }

  predicate IsReady(p: Pod) {
    exists i :: 0 <= i < |p.conditions| && p.conditions[i].isReady && p.conditions[i].isTrue
  }

  ghost predicate Served(pods: seq<Pod>, s: Slot) {
    exists i :: 0 <= i < |pods| && Serves(pods[i], s)
  }

  /** Every slot of the spec. */
  ghost function Slots(spec: Spec): set<Slot> {
    set g, w | 0 <= g < spec.replicas && 1 <= w <= spec.workers :: Slot(g, w)
  }

  /** Every slot has its own serving Pod: one for each, and no Pod serves two. */
  ghost predicate AllServed(pods: seq<Pod>, spec: Spec) {
    && (forall s :: HasSlot(spec, s) ==> Served(pods, s))
    && (forall i, s, t :: 0 <= i < |pods| && Serves(pods[i], s) && Serves(pods[i], t) ==> s == t)
  }

  method HasReadyCondition(p: Pod) returns (ready: bool)
    ensures ready <==> IsReady(p)
  {
    for i := 0 to |p.conditions|
      invariant forall j :: 0 <= j < i ==> !(p.conditions[j].isReady && p.conditions[j].isTrue)
    {
      if p.conditions[i].isReady && p.conditions[i].isTrue {
        return true;
      }
    }
    return false;
  }

  /** Collects the slots served by the listed Pods, each once however many Pods share it. */
  method ServedSlots(pods: seq<Pod>, spec: Spec) returns (ready: set<Slot>)
    ensures forall s :: s in ready <==> HasSlot(spec, s) && Served(pods, s)
  {
    ready := {};
    for i := 0 to |pods|
      invariant forall s :: s in ready <==> HasSlot(spec, s) && Served(pods[..i], s)
    {
      assert pods[..i + 1] == pods[..i] + [pods[i]];
      ServedOneMore(pods[..i], pods[i]);
      var p := pods[i];
      if p.terminating || !p.running {
        continue;
      }
      if p.worker.None? || p.worker.value < 1 || p.worker.value > spec.workers {
        continue;
      }
      if p.group.None? || p.group.value < 0 || p.group.value >= spec.replicas {
        continue;
      }
      var isReady := HasReadyCondition(p);
      if isReady {
        ready := ready + {Slot(p.group.value, p.worker.value)};
      }
    }
    assert pods[..|pods|] == pods;
  }

  lemma ServedOneMore(pods: seq<Pod>, p: Pod)
    ensures forall s :: Served(pods + [p], s) <==> Served(pods, s) || Serves(p, s)
  {
    forall s ensures Served(pods + [p], s) <==> Served(pods, s) || Serves(p, s) {
      assert (pods + [p])[|pods|] == p;
      if Served(pods, s) {
        var i :| 0 <= i < |pods| && Serves(pods[i], s);
        assert (pods + [p])[i] == pods[i];
      }
    }
  }

  /** How many workers the live object asks for, as the code computes it. */
  function DesiredWorkers(lws: LeaderWorkerSet): int {
    if lws.size.Some? && lws.size.value > 1 then Wrap(Replicas(lws) * Wrap(lws.size.value - 1)) else 0
  }

  function Replicas(lws: LeaderWorkerSet): int {
    if lws.replicas.Some? then lws.replicas.value else 0
  }

  function PhaseOf(lws: LeaderWorkerSet, readyWorkers: int): Phase {
    var current := lws.generation > 0 && lws.observedGeneration >= lws.generation;
    var updated := lws.updatedReplicas >= Replicas(lws);
    var ready := Replicas(lws) > 0 && lws.readyReplicas >= Replicas(lws) && readyWorkers >= DesiredWorkers(lws);
    if current && updated && ready then Ready else if current && updated then Degraded else Pending
  }

  ghost function CountServed(pods: seq<Pod>, spec: Spec): nat {
    |set s | s in Slots(spec) && Served(pods, s)|
  }

  /** The status is of the current generation, and every group the object asks for is updated. */
  ghost predicate RolledOut(lws: LeaderWorkerSet) {
    && 0 < lws.generation <= lws.observedGeneration
    && match lws.replicas
       case None => 0 <= lws.updatedReplicas
       case Some(desired) => desired <= lws.updatedReplicas
  }

  /** At least one group is asked for, and all of them are ready. */
  ghost predicate GroupsReady(lws: LeaderWorkerSet) {
    lws.replicas.Some? && 0 < lws.replicas.value <= lws.readyReplicas
  }

  /**
   Pending says that the status is stale or a group not updated. Within 32 bits ready says exactly that
   the set is rolled out, its groups are ready and every slot has its own serving Pod.
   */
  method Observe(lws: LeaderWorkerSet, spec: Spec, pods: seq<Pod>) returns (phase: Phase)
    ensures phase == PhaseOf(lws, Wrap(CountServed(pods, spec)))
    ensures phase.Pending? <==> !RolledOut(lws)
    ensures phase.Ready? ==> RolledOut(lws) && GroupsReady(lws)
    ensures Proper(spec) && Rendered(lws, spec) && Fits(spec) ==>
              (phase.Ready? <==> RolledOut(lws) && GroupsReady(lws) && AllServed(pods, spec))
  {
    var ready := ServedSlots(pods, spec);
    assert ready == set s | s in Slots(spec) && Served(pods, s) by {
      forall s ensures s in Slots(spec) <==> HasSlot(spec, s) {
        SlotsAre(spec, s);
      }
    }
    phase := PhaseOf(lws, Wrap(|ready|));
    if Proper(spec) && Rendered(lws, spec) && Fits(spec) {
      ReadyExactly(lws, spec, pods);
    }
  }

  lemma SlotsAre(spec: Spec, s: Slot)
    ensures s in Slots(spec) <==> HasSlot(spec, s)
  {
    assert s == Slot(s.group, s.worker);
  }

  // ---- Counting slots ----

  ghost function Row(g: int, workers: int): set<Slot> {
    set w | 1 <= w <= workers :: Slot(g, w)
  }

  lemma {:induction false} RowSize(g: int, workers: nat)
    ensures |Row(g, workers)| == workers
  {
    if workers > 0 {
      RowSize(g, workers - 1);
      assert Row(g, workers) == Row(g, workers - 1) + {Slot(g, workers)};
    }
  }

  lemma SlotsByRow(replicas: nat, workers: nat)
    requires replicas > 0
    ensures Slots(Spec(replicas, workers)) == Slots(Spec(replicas - 1, workers)) + Row(replicas - 1, workers)
    ensures Slots(Spec(replicas - 1, workers)) !! Row(replicas - 1, workers)
  {
    forall s ensures s in Slots(Spec(replicas, workers)) <==> s in Slots(Spec(replicas - 1, workers)) || s in Row(replicas - 1, workers) {
      SlotsAre(Spec(replicas, workers), s);
      SlotsAre(Spec(replicas - 1, workers), s);
      assert s == Slot(s.group, s.worker);
    }
  }

  lemma {:induction false} SlotsSize(replicas: nat, workers: nat)
    ensures |Slots(Spec(replicas, workers))| == replicas * workers
  {
    if replicas > 0 {
      SlotsSize(replicas - 1, workers);
      RowSize(replicas - 1, workers);
      SlotsByRow(replicas, workers);
      assert replicas * workers == (replicas - 1) * workers + workers;
    }
  }

  // ---- When ready means ready ----

  /** The live object was rendered from this spec. */
  predicate Rendered(lws: LeaderWorkerSet, spec: Spec) {
    lws.replicas == Some(spec.replicas) && lws.size == Some(Wrap(spec.workers + 1))
  }

  /** A spec of at least one group whose values are 32-bit. */
  predicate Proper(spec: Spec) {
    0 < spec.replicas <= MAX_INT32 && 0 <= spec.workers <= MAX_INT32
  }

  /** All worker counts fit into 32 bits. */
  predicate Fits(spec: Spec) {
    spec.workers < MAX_INT32 && spec.replicas * spec.workers <= MAX_INT32
  }

  lemma DesiredWhenFits(lws: LeaderWorkerSet, spec: Spec)
    requires Proper(spec) && Rendered(lws, spec) && Fits(spec)
    ensures DesiredWorkers(lws) == spec.replicas * spec.workers
  {
  }

  /** Within 32 bits, ready means that every slot is served, however many duplicates the list holds. */
  lemma ReadyMeansServed(lws: LeaderWorkerSet, spec: Spec, pods: seq<Pod>)
    requires Proper(spec) && Rendered(lws, spec) && Fits(spec)
    requires PhaseOf(lws, Wrap(CountServed(pods, spec))).Ready?
    ensures AllServed(pods, spec)
  {
    DesiredWhenFits(lws, spec);
    SlotsSize(spec.replicas, spec.workers);
    var ready := set s | s in Slots(spec) && Served(pods, s);
    SubsetSize(ready, Slots(spec));
    forall s | HasSlot(spec, s) ensures Served(pods, s) {
      SlotsAre(spec, s);
    }
  }

  lemma ServedMeansCounted(spec: Spec, pods: seq<Pod>)
    requires Proper(spec) && AllServed(pods, spec)
    ensures CountServed(pods, spec) == spec.replicas * spec.workers
  {
    SlotsSize(spec.replicas, spec.workers);
    forall s ensures s in Slots(spec) ==> Served(pods, s) {
      SlotsAre(spec, s);
    }
    assert (set s | s in Slots(spec) && Served(pods, s)) == Slots(spec);
  }

  /** Within 32 bits ready is exactly what it should be. */
  lemma ReadyExactly(lws: LeaderWorkerSet, spec: Spec, pods: seq<Pod>)
    requires Proper(spec) && Rendered(lws, spec) && Fits(spec)
    ensures PhaseOf(lws, Wrap(CountServed(pods, spec))).Ready? <==> RolledOut(lws) && GroupsReady(lws) && AllServed(pods, spec)
  {
    DesiredWhenFits(lws, spec);
    if PhaseOf(lws, Wrap(CountServed(pods, spec))).Ready? {
      ReadyMeansServed(lws, spec, pods);
    } else if AllServed(pods, spec) {
      ServedMeansCounted(spec, pods);
    }
  }

  // ---- And when it does not ----

  function PodFor(s: Slot): Pod {
    Pod(false, true, Some(s.worker), Some(s.group), [Condition(true, true)])
  }

  lemma PodForServes(s: Slot, t: Slot)
    ensures Serves(PodFor(s), t) <==> s == t
  {
    assert PodFor(s).conditions[0].isReady;
  }

  /** Some of the slots, as many as asked for, with a list of Pods that serves exactly these. */
  lemma {:induction false} ServeSome(slots: set<Slot>, n: nat) returns (some: set<Slot>, pods: seq<Pod>)
    requires n <= |slots|
    ensures some <= slots && |some| == n && forall s :: Served(pods, s) <==> s in some
  {
    if n == 0 {
      some, pods := {}, [];
    } else {
      var s :| s in slots;
      some, pods := ServeSome(slots - {s}, n - 1);
      ServedOneMore(pods, PodFor(s));
      forall t ensures Serves(PodFor(s), t) <==> s == t {
        PodForServes(s, t);
      }
      some, pods := some + {s}, pods + [PodFor(s)];
    }
  }

  lemma DesiredWhenNot(lws: LeaderWorkerSet, spec: Spec)
    requires Proper(spec) && Rendered(lws, spec) && !Fits(spec)
    ensures DesiredWorkers(lws) <= MAX_INT32 && DesiredWorkers(lws) < spec.replicas * spec.workers
  {
    if spec.workers == MAX_INT32 {
      assert Wrap(spec.workers + 1) < 0;
      assert spec.replicas * spec.workers >= spec.workers;
    }
  }

  /** Beyond 32 bits, a set can be reported ready with a slot unserved. */
  lemma ReadyWithoutWorker(spec: Spec) returns (lws: LeaderWorkerSet, pods: seq<Pod>)
    requires Proper(spec) && !Fits(spec)
    ensures Rendered(lws, spec) && PhaseOf(lws, Wrap(CountServed(pods, spec))).Ready? && !AllServed(pods, spec)
  {
    lws := LeaderWorkerSet(Some(spec.replicas), Some(Wrap(spec.workers + 1)), 1, 1, spec.replicas, spec.replicas);
    DesiredWhenNot(lws, spec);
    SlotsSize(spec.replicas, spec.workers);
    var n := if DesiredWorkers(lws) < 0 then 0 else DesiredWorkers(lws);
    var some;
    some, pods := ServeSome(Slots(spec), n);
    assert some == set s | s in Slots(spec) && Served(pods, s);
    if forall s :: s in Slots(spec) ==> s in some {
      SubsetSize(Slots(spec), some);
    }
    var missing :| missing in Slots(spec) && missing !in some;
    SlotsAre(spec, missing);
  }

  /** Ready is to be trusted, for every status and every Pod list, exactly when the counts fit into 32 bits. */
  lemma ReadyIsTrustedIff(spec: Spec)
    requires Proper(spec)
    ensures Fits(spec) <==>
              forall lws, pods :: Rendered(lws, spec) && PhaseOf(lws, Wrap(CountServed(pods, spec))).Ready? ==> AllServed(pods, spec)
  {
    if Fits(spec) {
      forall lws, pods | Rendered(lws, spec) && PhaseOf(lws, Wrap(CountServed(pods, spec))).Ready? ensures AllServed(pods, spec) {
        ReadyMeansServed(lws, spec, pods);
      }
    } else {
      var lws, pods := ReadyWithoutWorker(spec);
    }
  }
}
