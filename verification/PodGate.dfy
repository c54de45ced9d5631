/**
 The release gate of a managed GPU. A runtime counts as absent when every bound name is vacant and no
 Pod that could still hold the allocation is left in the cluster.
 */
module PodGate {
  import opened Text
  import opened ReleaseProof
  import opened FencedDelete

  datatype Phase = Active | Succeeded | Failed

  datatype Controller = Controller(batchJob: bool, name: string, uid: string)

  /** Names of the resources a container requests or limits. */
  datatype Container = Container(requests: seq<string>, limits: seq<string>)

  /** A Pod; labels may be missing, and `generation` is its generation label where that is a number. */
  datatype PodObject = PodObject(
    namespace: string, name: string, uid: string, phase: Phase,
    tenant: Option<string>, service: Option<string>, generation: Option<int>, kserve: Option<string>, materializer: bool,
    controller: Option<Controller>, containers: seq<Container>, inits: seq<Container>)

  /** The runtime; `fetchJob` names the model download job of a generation. */
  datatype Spec = Spec(
    tenant: string, service: string, generation: int, namespace: string, name: string,
    kserve: bool, managedGpu: bool, gpu: bool, modelArtifact: bool, fetchJob: int -> string)

  function Value(l: Option<string>): string {
    if l.Some? then l.value else ""
  }

  // ---- Which Pods hold the gate ----

  predicate Terminal(p: PodObject) {
    p.phase.Succeeded? || p.phase.Failed?
  }

  predicate HasLabels(spec: Spec, p: PodObject) {
    p.namespace == spec.namespace && p.tenant == Some(spec.tenant) && p.service == Some(spec.service)
  }

  predicate HasKServeLabel(spec: Spec, p: PodObject) {
    p.namespace == spec.namespace && p.kserve == Some(spec.name)
  }

  /** One of the two label selectors shows the Pod. */
  ghost predicate Listed(spec: Spec, p: PodObject) {
    && p.namespace == spec.namespace
    && ((p.tenant == Some(spec.tenant) && p.service == Some(spec.service)) || (spec.kserve && p.kserve == Some(spec.name)))
  }

  /** A label claims the Pod for somebody else. */
  predicate Foreign(spec: Spec, p: PodObject) {
    || (Value(p.tenant) != "" && Value(p.tenant) != spec.tenant)
    || (Value(p.service) != "" && Value(p.service) != spec.service)
  }

  /** It has the label of another tenant or service; an empty label claims nothing. */
  ghost predicate Elsewhere(spec: Spec, p: PodObject) {
    p.tenant !in {None, Some(""), Some(spec.tenant)} || p.service !in {None, Some(""), Some(spec.service)}
  }

  predicate Native(c: Container) {
    (forall r :: r in c.requests ==> '/' !in r) && (forall r :: r in c.limits ==> '/' !in r)
  }

  /** The model download Pod of the given generation: run by its job, with native resources only. */
  predicate Materializer(spec: Spec, generation: int, p: PodObject) {
    && spec.modelArtifact && p.materializer
    && p.controller.Some? && p.controller.value.batchJob && p.controller.value.uid != ""
    && p.controller.value.name == spec.fetchJob(generation)
    && (forall c :: c in p.containers ==> Native(c)) && (forall c :: c in p.inits ==> Native(c))
  }

  function GenerationFor(spec: Spec, p: PodObject): int {
    if p.generation.Some? then p.generation.value else spec.generation
  }

  ghost predicate Recorded(recorded: seq<PodRef>, p: PodObject) {
    exists i :: 0 <= i < |recorded| && recorded[i].uid == p.uid
  }

  ghost predicate NamedBy(ref: PodRef, p: PodObject) {
    ref.uid == p.uid && ref.namespace == p.namespace && ref.name == p.name
  }

  /** A listed Pod holds the gate unless it has ended, is somebody else's, or is the owned download Pod. */
  ghost predicate HoldsListed(spec: Spec, recorded: seq<PodRef>, p: PodObject) {
    && Listed(spec, p) && !Terminal(p)
    && (Recorded(recorded, p) || (!Elsewhere(spec, p) && !Materializer(spec, GenerationFor(spec, p), p)))
  }

  ghost predicate HoldsNamed(recorded: seq<PodRef>, p: PodObject) {
    !Terminal(p) && exists i :: 0 <= i < |recorded| && NamedBy(recorded[i], p)
  }

  ghost predicate Holds(spec: Spec, recorded: seq<PodRef>, p: PodObject) {
    HoldsListed(spec, recorded, p) || HoldsNamed(recorded, p)
  }

  /** A snapshot the API server can give: UIDs and names are unique. */
  ghost predicate Consistent(pods: seq<PodObject>) {
    && (forall i, j :: 0 <= i < j < |pods| ==> pods[i].uid != pods[j].uid)
    && (forall i, j :: 0 <= i < j < |pods| ==> (pods[i].namespace, pods[i].name) != (pods[j].namespace, pods[j].name))
  }

  /** A recorded identity is that of the Pod with its UID; a Pod never changes its name. */
  ghost predicate Truthful(recorded: seq<PodRef>, pods: seq<PodObject>) {
    forall i, p :: 0 <= i < |recorded| && p in pods && recorded[i].uid == p.uid ==> NamedBy(recorded[i], p)
  }

  /** With truthful records: a live Pod holds the gate exactly when it is recorded, or the service's own and not its download Pod. */
  lemma HoldsMeaning(spec: Spec, recorded: seq<PodRef>, pods: seq<PodObject>, p: PodObject)
    requires Truthful(recorded, pods) && p in pods
    ensures Holds(spec, recorded, p) <==>
              !Terminal(p) && (Recorded(recorded, p) || (Listed(spec, p) && !Elsewhere(spec, p) && !Materializer(spec, GenerationFor(spec, p), p)))
  {
  }

  // ---- The check ----

  method NativeOnly(containers: seq<Container>) returns (ok: bool)
    ensures ok <==> forall c :: c in containers ==> Native(c)
  {
    for i := 0 to |containers|
      invariant forall c :: c in containers[..i] ==> Native(c)
    {
      for k := 0 to |containers[i].requests|
        invariant forall r :: r in containers[i].requests[..k] ==> '/' !in r
      {
        if '/' in containers[i].requests[k] {
          assert !Native(containers[i]);
          return false;
        }
      }
      for k := 0 to |containers[i].limits|
        invariant forall r :: r in containers[i].limits[..k] ==> '/' !in r
      {
        if '/' in containers[i].limits[k] {
          assert !Native(containers[i]);
          return false;
        }
      }
    }
    return true;
  }

  method IsOwnedMaterializer(spec: Spec, generation: int, p: PodObject) returns (yes: bool)
    ensures yes <==> Materializer(spec, generation, p)
  {
    if !spec.modelArtifact || !p.materializer {
      return false;
    }
    if p.controller.None? || !p.controller.value.batchJob || p.controller.value.uid == "" || p.controller.value.name != spec.fetchJob(generation) {
      return false;
    }
    var main := NativeOnly(p.containers);
    var init := NativeOnly(p.inits);
    return main && init;
  }

  function Matching(pods: seq<PodObject>, f: PodObject -> bool): (r: seq<PodObject>)
    ensures forall p :: p in r <==> p in pods && f(p)
  {
    if pods == [] then []
    else
      assert forall p :: p in pods <==> p == pods[0] || p in pods[1..];
      (if f(pods[0]) then [pods[0]] else []) + Matching(pods[1..], f)
  }

  /** The two label-selected lists, one after the other; a Pod may be on both. */
  function Lists(spec: Spec, pods: seq<PodObject>): (r: seq<PodObject>)
    ensures forall p :: p in r <==> p in pods && Listed(spec, p)
  {
    Matching(pods, p => HasLabels(spec, p)) + if spec.kserve then Matching(pods, p => HasKServeLabel(spec, p)) else []
  }

  /** Reads a Pod by name. */
  function Find(pods: seq<PodObject>, namespace: string, name: string): (p: Option<PodObject>)
    ensures p.Some? ==> p.value in pods && p.value.namespace == namespace && p.value.name == name
    ensures p.None? ==> forall q :: q in pods ==> !(q.namespace == namespace && q.name == name)
  {
    if pods == [] then None
    else if pods[0].namespace == namespace && pods[0].name == name then Some(pods[0])
    else
      assert forall p :: p in pods <==> p == pods[0] || p in pods[1..];
      Find(pods[1..], namespace, name)
  }

  /** Which of the listed Pods hold the gate. */
  method ListedRemaining(spec: Spec, recorded: seq<PodRef>, list: seq<PodObject>) returns (remaining: seq<PodObject>, seen: set<string>)
    requires forall i, j :: 0 <= i < |list| && 0 <= j < |list| && list[i].uid == list[j].uid ==> list[i] == list[j]
    requires forall p :: p in list ==> Listed(spec, p)
    ensures forall p :: p in remaining <==> p in list && HoldsListed(spec, recorded, p)
    ensures forall p :: p in list ==> p.uid in seen
    ensures forall u :: u in seen ==> exists p :: p in list && p.uid == u
  {
    var uids := set i | 0 <= i < |recorded| :: recorded[i].uid;
    remaining, seen := [], {};
    for i := 0 to |list|
      invariant forall p :: p in remaining <==> p in list[..i] && HoldsListed(spec, recorded, p)
      invariant forall p :: p in list[..i] ==> p.uid in seen
      invariant forall u :: u in seen ==> exists p :: p in list[..i] && p.uid == u
    {
      var p := list[i];
      InPrefix(list, i);
      if p.uid in seen {
        continue;
      }
      seen := seen + {p.uid};
      if p.phase.Succeeded? || p.phase.Failed? {
        continue;
      }
      if p.uid !in uids {
        if Foreign(spec, p) {
          continue;
        }
        var download := IsOwnedMaterializer(spec, GenerationFor(spec, p), p);
        if download {
          continue;
        }
      }
      remaining := remaining + [p];
    }
    assert list[..|list|] == list;
  }

  lemma InPrefix(list: seq<PodObject>, i: nat)
    requires i < |list|
    ensures forall p :: p in list[..i + 1] <==> p in list[..i] || p == list[i]
  {
    assert list[..i + 1] == list[..i] + [list[i]];
  }

  lemma SamePod(pods: seq<PodObject>, p: PodObject, q: PodObject)
    requires Consistent(pods) && p in pods && q in pods
    ensures p.uid == q.uid ==> p == q
    ensures p.namespace == q.namespace && p.name == q.name ==> p == q
  {
    var i :| 0 <= i < |pods| && pods[i] == p;
    var j :| 0 <= j < |pods| && pods[j] == q;
    assert (pods[i].namespace, pods[i].name) == (p.namespace, p.name) && (pods[j].namespace, pods[j].name) == (q.namespace, q.name);
  }

  lemma ListsAreConsistent(spec: Spec, pods: seq<PodObject>)
    requires Consistent(pods)
    ensures var list := Lists(spec, pods);
            forall i, j :: 0 <= i < |list| && 0 <= j < |list| && list[i].uid == list[j].uid ==> list[i] == list[j]
  {
    var list := Lists(spec, pods);
    forall i, j | 0 <= i < |list| && 0 <= j < |list| && list[i].uid == list[j].uid ensures list[i] == list[j] {
      assert list[i] in list && list[j] in list;
      SamePod(pods, list[i], list[j]);
    }
  }

  /** Does the gate apply to this runtime at all? */
  predicate Gated(spec: Spec) {
    spec.managedGpu && spec.gpu
  }

  /** A recorded Pod that no list showed, found by its recorded name. */
  ghost predicate FoundByName(pods: seq<PodObject>, seen: set<string>, ref: PodRef, p: PodObject) {
    p in pods && ref.uid !in seen && NamedBy(ref, p) && !Terminal(p)
  }

  /** Looks up one recorded Pod by name; `None` is a read error. */
  method NamedRemaining(pods: seq<PodObject>, seen: set<string>, ref: PodRef, fails: bool) returns (found: Option<seq<PodObject>>)
    requires Consistent(pods)
    ensures found.None? <==> fails && ref.uid !in seen
    ensures found.Some? ==> forall p :: p in found.value <==> FoundByName(pods, seen, ref, p)
  {
    if ref.uid in seen {
      return Some([]);
    }
    if fails {
      return None;
    }
    var pod := Find(pods, ref.namespace, ref.name);
    if pod.Some? && pod.value.uid == ref.uid && !pod.value.phase.Succeeded? && !pod.value.phase.Failed? {
      forall p | FoundByName(pods, seen, ref, p) ensures p == pod.value {
        SamePod(pods, p, pod.value);
      }
      return Some([pod.value]);
    }
    forall p | p in pods && NamedBy(ref, p) ensures Terminal(p) {
      SamePod(pods, p, pod.value);
    }
    return Some([]);
  }

  /** What the lists and the names show together is exactly what holds the gate. */
  lemma ShownIsHeld(spec: Spec, recorded: seq<PodRef>, pods: seq<PodObject>, seen: set<string>, p: PodObject)
    requires Consistent(pods) && p in pods
    requires forall q :: q in pods && Listed(spec, q) ==> q.uid in seen
    requires forall u :: u in seen ==> exists q :: q in pods && Listed(spec, q) && q.uid == u
    ensures Holds(spec, recorded, p) <==>
              HoldsListed(spec, recorded, p) || exists i :: 0 <= i < |recorded| && FoundByName(pods, seen, recorded[i], p)
  {
    forall q | q in pods && q.uid == p.uid ensures q == p {
      SamePod(pods, p, q);
    }
    if HoldsNamed(recorded, p) && !HoldsListed(spec, recorded, p) {
      var i :| 0 <= i < |recorded| && NamedBy(recorded[i], p);
      assert FoundByName(pods, seen, recorded[i], p);
    }
    if i :| 0 <= i < |recorded| && FoundByName(pods, seen, recorded[i], p) {
      assert NamedBy(recorded[i], p);
    }
  }

  /** Every Pod that may still hold the allocation, on one snapshot; `None` is a read error. */
  method PodsRemaining(spec: Spec, recorded: seq<PodRef>, pods: seq<PodObject>, listFails: bool, getFails: nat -> bool)
    returns (remaining: Option<seq<PodObject>>)
    requires Consistent(pods)
    ensures remaining.None? ==> listFails || exists i :: getFails(i)
    ensures Gated(spec) && listFails ==> remaining.None?
    ensures remaining.Some? && Gated(spec) ==> forall p :: p in remaining.value <==> p in pods && Holds(spec, recorded, p)
    ensures !Gated(spec) ==> remaining == Some([])
  {
    if !spec.managedGpu || !spec.gpu {
      return Some([]);
    }
    if listFails {
      return None;
    }
    var list := Lists(spec, pods);
    ListsAreConsistent(spec, pods);
    var found, seen := ListedRemaining(spec, recorded, list);
    for i := 0 to |recorded|
      invariant forall p :: p in found <==> (p in pods && HoldsListed(spec, recorded, p)) || ByName(pods, seen, recorded[..i], p)
    {
      ByNameOneMore(pods, seen, recorded, i);
      var more := NamedRemaining(pods, seen, recorded[i], getFails(i));
      if more.None? {
        return None;
      }
      found := found + more.value;
    }
    assert recorded[..|recorded|] == recorded;
    forall p ensures p in found <==> p in pods && Holds(spec, recorded, p) {
      if p in pods {
        ShownIsHeld(spec, recorded, pods, seen, p);
      }
    }
    remaining := Some(found);
  }

  ghost predicate ByName(pods: seq<PodObject>, seen: set<string>, recorded: seq<PodRef>, p: PodObject) {
    exists i :: 0 <= i < |recorded| && FoundByName(pods, seen, recorded[i], p)
  }

  lemma ByNameOneMore(pods: seq<PodObject>, seen: set<string>, recorded: seq<PodRef>, n: nat)
    requires n < |recorded|
    ensures forall p :: ByName(pods, seen, recorded[..n + 1], p) <==> ByName(pods, seen, recorded[..n], p) || FoundByName(pods, seen, recorded[n], p)
  {
    forall p ensures ByName(pods, seen, recorded[..n + 1], p) <==> ByName(pods, seen, recorded[..n], p) || FoundByName(pods, seen, recorded[n], p) {
      assert recorded[..n + 1][n] == recorded[n];
      if ByName(pods, seen, recorded[..n], p) {
        var i :| 0 <= i < n && FoundByName(pods, seen, recorded[..n][i], p);
        assert recorded[..n + 1][i] == recorded[..n][i];
      }
      if ByName(pods, seen, recorded[..n + 1], p) {
        var i :| 0 <= i < n + 1 && FoundByName(pods, seen, recorded[..n + 1][i], p);
        assert i < n ==> recorded[..n][i] == recorded[..n + 1][i];
      }
    }
  }

  // ---- Bound objects ----

  datatype Bound = Bound(key: Key, uid: string, generation: int, role: string)

  /** What is read of an existing object; a label that is not a number is `None`. */
  datatype Meta = Meta(tenant: string, service: string, generation: Option<int>, uid: string, version: string)

  predicate Watched(b: Bound) {
    b.role == "" || b.role == "runtime" || b.role == "endpoint"
  }

  ghost predicate OfRuntime(b: Bound) {
    b.role in {"", "runtime", "endpoint"}
  }

  /** The existing object is the bound one of this tenant and service. */
  predicate IsBoundObject(spec: Spec, b: Bound, m: Meta) {
    && spec.tenant != "" && spec.service != "" && m.tenant == spec.tenant && m.service == spec.service
    && m.generation.Some? && m.generation.value >= 1 && m.generation.value == b.generation
    && m.uid != "" && m.version != "" && b.uid != "" && b.uid == m.uid
  }

  /** Observing this binding neither fails nor finds an object that is not the bound one. */
  ghost predicate Observable(spec: Spec, objects: map<Key, Meta>, b: Bound) {
    && KnownKind(b)
    && (b.key in objects ==>
          && objects[b.key] == Meta(spec.tenant, spec.service, Some(b.generation), b.uid, objects[b.key].version)
          && "" !in {spec.tenant, spec.service, b.uid, objects[b.key].version} && b.generation >= 1)
  }

  ghost predicate KnownKind(b: Bound) {
    b.key.kind in {Deployment, LeaderWorkerSet, Service, Pod, InferenceService}
  }

  /** Reads every watched binding: stopped when all names are vacant; `None` is an error. */
  method ObserveDeletion(spec: Spec, bindings: seq<Bound>, objects: map<Key, Meta>, getFails: nat -> bool) returns (stopped: Option<bool>)
    ensures stopped.Some? ==> (exists b :: b in bindings && OfRuntime(b)) && forall b :: b in bindings && OfRuntime(b) ==> Observable(spec, objects, b)
    ensures stopped.Some? ==> (stopped.value <==> forall b :: b in bindings && OfRuntime(b) ==> b.key !in objects)
    ensures (forall i :: getFails(i)) ==> stopped.None?
    ensures stopped.None? ==>
              || (exists i :: getFails(i)) || (forall b :: b in bindings ==> !OfRuntime(b))
              || exists b :: b in bindings && OfRuntime(b) && !Observable(spec, objects, b)
  {
    var vacant, watched := true, false;
    for i := 0 to |bindings|
      invariant watched <==> exists b :: b in bindings[..i] && OfRuntime(b)
      invariant forall b :: b in bindings[..i] && OfRuntime(b) ==> Observable(spec, objects, b)
      invariant vacant <==> forall b :: b in bindings[..i] && OfRuntime(b) ==> b.key !in objects
      invariant (forall k :: getFails(k)) ==> !watched
    {
      var b := bindings[i];
      assert bindings[..i + 1] == bindings[..i] + [b];
      if !Watched(b) {
        continue;
      }
      assert OfRuntime(b) && b in bindings && b in bindings[..i + 1];
      if !Supported(b.key.kind) || getFails(i) {
        return None;
      }
      if b.key in objects {
        if !IsBoundObject(spec, b, objects[b.key]) {
          return None;
        }
        vacant := false;
      }
      watched := true;
    }
    assert bindings[..|bindings|] == bindings;
    stopped := if watched then Some(vacant) else None;
  }

  /** A snapshot of the cluster. */
  datatype Cluster = Cluster(objects: map<Key, Meta>, pods: seq<PodObject>)

  /** Absence as the release needs it: every bound name vacant and, for a managed GPU, no Pod left that holds the gate. */
  ghost predicate Absent(spec: Spec, bindings: seq<Bound>, recorded: seq<PodRef>, c: Cluster) {
    && (exists b :: b in bindings && OfRuntime(b)) && (forall b :: b in bindings && OfRuntime(b) ==> b.key !in c.objects)
    && (Gated(spec) ==> forall p :: p in c.pods ==> !Holds(spec, recorded, p))
  }

  /** No read fails, and every watched binding is of a known kind. */
  ghost predicate Undisturbed(bindings: seq<Bound>, getFails: nat -> bool, listFails: bool, podFails: nat -> bool) {
    && (forall i :: !getFails(i)) && !listFails && (forall i :: !podFails(i))
    && forall b :: b in bindings && OfRuntime(b) ==> KnownKind(b)
  }

  /** Reports absence only when it holds, and, with readable objects of known kinds, whenever it holds. */
  method ObserveAbsence(spec: Spec, withdrawn: bool, bindings: seq<Bound>, recorded: seq<PodRef>, c: Cluster,
                        getFails: nat -> bool, listFails: bool, podFails: nat -> bool) returns (absent: Option<bool>)
    requires Consistent(c.pods)
    ensures absent == Some(true) ==> withdrawn && Absent(spec, bindings, recorded, c)
    ensures absent == Some(false) ==> withdrawn && !Absent(spec, bindings, recorded, c)
    ensures withdrawn && Absent(spec, bindings, recorded, c) && Undisturbed(bindings, getFails, listFails, podFails) ==> absent == Some(true)
  {
    if !withdrawn {
      return None;
    }
    var stopped := ObserveDeletion(spec, bindings, c.objects, getFails);
    if stopped.None? {
      return None;
    }
    if !stopped.value {
      return Some(false);
    }
    var remaining := PodsRemaining(spec, recorded, c.pods, listFails, podFails);
    if remaining.None? {
      return None;
    }
    if |remaining.value| > 0 {
      assert remaining.value[0] in remaining.value;
      return Some(false);
    }
    absent := Some(true);
  }
}
