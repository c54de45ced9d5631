/**
 The ownership walk of runtime diagnostics. A Pod belongs to a service when a short chain of controller
 references, each checked against the UID of the object it names, leads to a persisted binding. Objects
 read on the way are shared between the Pods of one request.
 */
module OwnershipWalk {
  import opened Text
  import opened Sorting

  const MAX_DEPTH := 8
  const MAX_PODS := 500

  datatype ObjectKind =
    | Pod | Deployment | ReplicaSet | StatefulSet | Job | LeaderWorkerSet | InferenceService | LLMInferenceService
    | KServeInferenceService | KServeLLMInferenceService | OtherKind(name: string)

  /** A controller that is unset counts as not controlling. */
  datatype Owner = Owner(apiVersion: string, kind: ObjectKind, name: string, uid: string, controller: Option<bool>)

  datatype Object = Object(uid: string, owners: seq<Owner>)

  datatype Key = Key(namespace: string, apiVersion: string, kind: ObjectKind, name: string)

  datatype Lookup = Found(found: Object) | Missing | Unreadable

  /** A fixed snapshot of the cluster. */
  type Cluster = Key -> Lookup

  datatype Binding = Binding(kind: ObjectKind, namespace: string, name: string, uid: string)

  /** A visited object: what is compared with the bindings, and its owners. */
  datatype Node = Node(kind: ObjectKind, name: string, uid: string, owners: seq<Owner>)

  const APPS := "apps/v1"
  const BATCH := "batch/v1"
  const LWS := "leaderworkerset.x-k8s.io/"
  const KSERVE := "serving.kserve.io/"
  const ANI := "ani.kubercloud.com/"

  predicate OwnerKind(apiVersion: string, kind: ObjectKind) {
    match kind
    case Deployment => apiVersion == APPS
    case ReplicaSet => apiVersion == APPS
    case StatefulSet => apiVersion == APPS
    case Job => apiVersion == BATCH
    case LeaderWorkerSet => LWS <= apiVersion
    case InferenceService => KSERVE <= apiVersion || ANI <= apiVersion
    case LLMInferenceService => KSERVE <= apiVersion
    case _ => false
  }

  function BindingKind(kind: ObjectKind): ObjectKind {
    match kind
    case KServeInferenceService => InferenceService
    case KServeLLMInferenceService => LLMInferenceService
    case _ => kind
  }

  predicate Matches(b: Binding, namespace: string, n: Node) {
    b.namespace == namespace && BindingKind(b.kind) == n.kind && b.name == n.name && b.uid == n.uid
  }

  /** A reference the walk follows, before the object it names is read. */
  predicate Followed(o: Owner) {
    OwnerKind(o.apiVersion, o.kind) && o.controller == Some(true)
  }

  function KeyOf(namespace: string, o: Owner): Key {
    Key(namespace, o.apiVersion, o.kind, o.name)
  }

  /** The request: where to look, what is bound, and the snapshot. */
  datatype Scene = Scene(namespace: string, bindings: seq<Binding>, cluster: Cluster)

  predicate IsBound(scene: Scene, n: Node) {
    exists i :: 0 <= i < |scene.bindings| && Matches(scene.bindings[i], scene.namespace, n)
  }

  // ---- The walk that reads the cluster every time ----

  /** `None` is a read error. */
  function Verdict(scene: Scene, n: Node, depth: nat): Option<bool>
    decreases MAX_DEPTH + 1 - depth, 1, 0
  {
    if n.uid == "" || depth > MAX_DEPTH then Some(false)
    else if IsBound(scene, n) then Some(true)
    else VerdictFrom(scene, n.owners, depth)
  }

  /** The first owner that decides: an unreadable one, or one whose walk errs or succeeds. */
  function VerdictFrom(scene: Scene, owners: seq<Owner>, depth: nat): Option<bool>
    requires depth <= MAX_DEPTH
    decreases MAX_DEPTH + 1 - depth, 0, |owners|
  {
    if owners == [] then Some(false)
    else
      var first := VerdictOf(scene, owners[0], depth);
      if first != Some(false) then first else VerdictFrom(scene, owners[1..], depth)
  }

  function VerdictOf(scene: Scene, o: Owner, depth: nat): Option<bool>
    requires depth <= MAX_DEPTH
    decreases MAX_DEPTH - depth, 2, 0
  {
    if !Followed(o) then Some(false)
    else
      match scene.cluster(KeyOf(scene.namespace, o))
      case Missing => Some(false)
      case Unreadable => None
      case Found(found) =>
        if found.uid != o.uid then Some(false)
        else Verdict(scene, Node(o.kind, o.name, o.uid, found.owners), depth + 1)
  }

  // ---- What a positive verdict means ----

  /** A kind of controller the walk knows, under an API version it has. */
  ghost predicate KnownController(o: Owner) {
    || ((o.kind.Deployment? || o.kind.ReplicaSet? || o.kind.StatefulSet?) && o.apiVersion == "apps/v1")
    || (o.kind.Job? && o.apiVersion == "batch/v1")
    || (o.kind.LeaderWorkerSet? && "leaderworkerset.x-k8s.io/" <= o.apiVersion)
    || ((o.kind.InferenceService? || o.kind.LLMInferenceService?) && "serving.kserve.io/" <= o.apiVersion)
    || (o.kind.InferenceService? && "ani.kubercloud.com/" <= o.apiVersion)
  }

  /** A binding of the request names the object; KServe bindings name the kind of the KServe object. */
  ghost predicate Named(scene: Scene, n: Node) {
    exists b :: b in scene.bindings && b.namespace == scene.namespace && b.name == n.name && b.uid == n.uid && NamesKind(b.kind, n.kind)
  }

  ghost predicate NamesKind(bound: ObjectKind, kind: ObjectKind) {
    if bound.KServeInferenceService? then kind.InferenceService?
    else if bound.KServeLLMInferenceService? then kind.LLMInferenceService?
    else kind == bound
  }

  lemma BoundIsNamed(scene: Scene, n: Node)
    ensures IsBound(scene, n) <==> Named(scene, n)
  {
    if IsBound(scene, n) {
      var i :| 0 <= i < |scene.bindings| && Matches(scene.bindings[i], scene.namespace, n);
      assert scene.bindings[i] in scene.bindings;
    }
    if Named(scene, n) {
      var b :| b in scene.bindings && b.namespace == scene.namespace && b.name == n.name && b.uid == n.uid && NamesKind(b.kind, n.kind);
      var i :| 0 <= i < |scene.bindings| && scene.bindings[i] == b;
      assert Matches(scene.bindings[i], scene.namespace, n);
    }
  }

  /** One checked edge: a controller reference of `a` to an object that exists under the referenced UID, which is `b`. */
  ghost predicate Edge(scene: Scene, a: Node, b: Node) {
    exists i :: 0 <= i < |a.owners| && Leads(scene, a.owners[i], b)
  }

  ghost predicate Leads(scene: Scene, o: Owner, b: Node) {
    && o.controller == Some(true) && KnownController(o) && b.kind == o.kind && b.name == o.name && b.uid == o.uid
    && scene.cluster(Key(scene.namespace, o.apiVersion, o.kind, o.name)) == Found(Object(o.uid, b.owners))
  }

  /** A chain of checked edges between objects with UIDs that ends in a bound one. */
  ghost predicate Chain(scene: Scene, nodes: seq<Node>) {
    && nodes != [] && (forall i :: 0 <= i < |nodes| ==> nodes[i].uid != "")
    && (forall i :: 0 < i < |nodes| ==> Edge(scene, nodes[i - 1], nodes[i]))
    && Named(scene, nodes[|nodes| - 1])
  }

  ghost predicate Readable(scene: Scene) {
    forall k :: scene.cluster(k) != Unreadable
  }

  lemma ChainExtends(scene: Scene, n: Node, nodes: seq<Node>)
    requires Chain(scene, nodes) && n.uid != "" && Edge(scene, n, nodes[0])
    ensures Chain(scene, [n] + nodes)
  {
    var all := [n] + nodes;
    forall i | 0 < i < |all| ensures Edge(scene, all[i - 1], all[i]) {
      if i > 1 {
        assert all[i - 1] == nodes[i - 2] && all[i] == nodes[i - 1];
        assert Edge(scene, nodes[i - 1 - 1], nodes[i - 1]);
      }
    }
  }

  lemma ChainTail(scene: Scene, nodes: seq<Node>)
    requires Chain(scene, nodes) && |nodes| > 1
    ensures Chain(scene, nodes[1..]) && Edge(scene, nodes[0], nodes[1])
  {
    assert Edge(scene, nodes[1 - 1], nodes[1]);
    forall i | 0 < i < |nodes| - 1 ensures Edge(scene, nodes[1..][i - 1], nodes[1..][i]) {
      assert Edge(scene, nodes[i + 1 - 1], nodes[i + 1]);
    }
  }

  /** A positive verdict has a chain of at most the remaining depth to show for it. */
  lemma {:induction false} PositiveHasChain(scene: Scene, n: Node, depth: nat) returns (nodes: seq<Node>)
    requires Verdict(scene, n, depth) == Some(true)
    ensures Chain(scene, nodes) && nodes[0] == n && |nodes| - 1 <= MAX_DEPTH - depth
    decreases MAX_DEPTH + 1 - depth, 1, 0
  {
    BoundIsNamed(scene, n);
    if IsBound(scene, n) {
      nodes := [n];
    } else {
      var i, rest := PositiveOwner(scene, n.owners, depth);
      assert Leads(scene, n.owners[i], rest[0]);
      ChainExtends(scene, n, rest);
      nodes := [n] + rest;
    }
  }

  lemma {:induction false} PositiveOwner(scene: Scene, owners: seq<Owner>, depth: nat) returns (i: nat, nodes: seq<Node>)
    requires depth <= MAX_DEPTH && VerdictFrom(scene, owners, depth) == Some(true)
    ensures i < |owners| && Chain(scene, nodes) && Leads(scene, owners[i], nodes[0]) && |nodes| - 1 <= MAX_DEPTH - depth - 1
    decreases MAX_DEPTH + 1 - depth, 0, |owners|
  {
    var o := owners[0];
    if VerdictOf(scene, o, depth) == Some(true) {
      i := 0;
      var found := scene.cluster(KeyOf(scene.namespace, o)).found;
      nodes := PositiveHasChain(scene, Node(o.kind, o.name, o.uid, found.owners), depth + 1);
    } else {
      i, nodes := PositiveOwner(scene, owners[1..], depth);
      i := i + 1;
    }
  }

  /** On a readable snapshot a chain within the remaining depth forces a positive verdict. */
  lemma {:induction false} ChainGivesPositive(scene: Scene, nodes: seq<Node>, depth: nat)
    requires Readable(scene) && Chain(scene, nodes) && |nodes| - 1 + depth <= MAX_DEPTH
    ensures Verdict(scene, nodes[0], depth) == Some(true)
    decreases |nodes|
  {
    BoundIsNamed(scene, nodes[0]);
    if !IsBound(scene, nodes[0]) {
      ChainTail(scene, nodes);
      var i :| 0 <= i < |nodes[0].owners| && Leads(scene, nodes[0].owners[i], nodes[1]);
      ChainGivesPositive(scene, nodes[1..], depth + 1);
      assert VerdictOf(scene, nodes[0].owners[i], depth) == Some(true);
      OwnerDecides(scene, nodes[0].owners, i, depth);
    }
  }

  lemma {:induction false} OwnerDecides(scene: Scene, owners: seq<Owner>, i: nat, depth: nat)
    requires Readable(scene) && depth <= MAX_DEPTH && i < |owners| && VerdictOf(scene, owners[i], depth) == Some(true)
    ensures VerdictFrom(scene, owners, depth) == Some(true)
    decreases |owners|
  {
    NoErrors(scene, owners[0], depth);
    var first := VerdictOf(scene, owners[0], depth);
    if i > 0 {
      assert owners[1..][i - 1] == owners[i];
      OwnerDecides(scene, owners[1..], i - 1, depth);
      assert first == if first.value then Some(true) else Some(false);
    }
  }

  lemma {:induction false} NoErrors(scene: Scene, o: Owner, depth: nat)
    requires Readable(scene) && depth <= MAX_DEPTH
    ensures VerdictOf(scene, o, depth).Some?
    decreases MAX_DEPTH - depth, 1, 0
  {
    match scene.cluster(KeyOf(scene.namespace, o))
    case Found(found) =>
      if Followed(o) && found.uid == o.uid && depth < MAX_DEPTH {
        NoErrorsFrom(scene, found.owners, depth + 1);
      }
    case _ =>
  }

  lemma {:induction false} NoErrorsFrom(scene: Scene, owners: seq<Owner>, depth: nat)
    requires Readable(scene) && depth <= MAX_DEPTH
    ensures VerdictFrom(scene, owners, depth).Some?
    decreases MAX_DEPTH - depth, 2, |owners|
  {
    if owners != [] {
      NoErrors(scene, owners[0], depth);
      NoErrorsFrom(scene, owners[1..], depth);
    }
  }

  /** A chain of at most eight edges leads from the object to a bound one. */
  ghost predicate Reachable(scene: Scene, n: Node) {
    exists nodes :: Chain(scene, nodes) && nodes[0] == n && |nodes| - 1 <= 8
  }

  /** Over every readable snapshot, cyclic or not: a Pod is owned exactly when a chain of at most eight edges binds it. */
  lemma VerdictIsReachability(scene: Scene, n: Node)
    requires Readable(scene)
    ensures Verdict(scene, n, 0).Some?
    ensures Verdict(scene, n, 0).value <==> Reachable(scene, n)
  {
    NoErrorsFrom(scene, n.owners, 0);
    if Verdict(scene, n, 0).value {
      var nodes := PositiveHasChain(scene, n, 0);
    }
    if nodes :| Chain(scene, nodes) && nodes[0] == n && |nodes| - 1 <= 8 {
      ChainGivesPositive(scene, nodes, 0);
    }
  }

  // ---- The walk that shares what it read ----

  /** One request: the objects read so far, with `None` for those not found, and the reads made. */
  class Walk {
    const scene: Scene
    /** Which of the checks before an object find the request cancelled. */
    const cancelled: nat -> bool
    var checks: nat
    var ancestors: map<Key, Option<Object>>
    ghost var asked: seq<Key>

    /** What is remembered is what the snapshot says, and nothing remembered was read twice. */
    ghost predicate Valid()
      reads this
    {
      && (forall k :: k in ancestors ==> Remembers(scene.cluster(k), ancestors[k]))
      && (forall k :: k in asked ==> k in ancestors)
      && Distinct(asked)
    }

    /** Nobody cancels the request. */
    ghost predicate Calm() {
      forall i :: !cancelled(i)
    }

    constructor (scene: Scene, cancelled: nat -> bool)
      ensures Valid() && this.scene == scene && this.cancelled == cancelled && ancestors == map[] && asked == []
    {
      this.scene, this.cancelled, checks, ancestors, asked := scene, cancelled, 0, map[], [];
    }

    /** Reads an object, or remembers it; `None` is a read error. */
    method Get(k: Key) returns (found: Option<Option<Object>>)
      requires Valid()
      modifies this`ancestors, this`asked
      ensures found.None? <==> scene.cluster(k).Unreadable?
      ensures found.None? ==> ancestors == old(ancestors) && asked == old(asked) + [k] && k !in old(asked)
      ensures found.Some? ==> Valid() && Remembers(scene.cluster(k), found.value)
      ensures ancestors == old(ancestors) || ancestors.Keys == old(ancestors).Keys + {k}
    {
      if k in ancestors {
        return Some(ancestors[k]);
      }
      DistinctExtends(asked, k);
      asked := asked + [k];
      match scene.cluster(k)
      case Unreadable => return None;
      case Missing =>
        ancestors := ancestors[k := None];
        return Some(None);
      case Found(o) =>
        ancestors := ancestors[k := Some(o)];
        return Some(Some(o));
    }

    /** The verdict with shared ancestors is the verdict without, unless the request is cancelled; no object is read twice. */
    method BoundObject(n: Node, depth: nat) returns (owned: Option<bool>)
      requires Valid()
      modifies this
      ensures (owned.Some? || Calm() ==> owned == Verdict(scene, n, depth)) && Distinct(asked) && (owned.Some? ==> Valid())
      ensures (forall i :: cancelled(i)) ==> owned.None?
      decreases MAX_DEPTH + 1 - depth
    {
      checks := checks + 1;
      if cancelled(checks) {
        return None;
      }
      if n.uid == "" || depth > MAX_DEPTH {
        return Some(false);
      }
      for i := 0 to |scene.bindings|
        invariant Valid() && forall j :: 0 <= j < i ==> !Matches(scene.bindings[j], scene.namespace, n)
      {
        if Matches(scene.bindings[i], scene.namespace, n) {
          return Some(true);
        }
      }
      for i := 0 to |n.owners|
        invariant Valid() && VerdictFrom(scene, n.owners, depth) == VerdictFrom(scene, n.owners[i..], depth)
      {
        var o := n.owners[i];
        assert n.owners[i..][0] == o && n.owners[i..][1..] == n.owners[i + 1..];
        if !Followed(o) {
          continue;
        }
        var found := Get(KeyOf(scene.namespace, o));
        if found.None? {
          DistinctExtends(asked[..|asked| - 1], asked[|asked| - 1]);
          return None;
        }
        if found.value.None? || found.value.value.uid != o.uid {
          continue;
        }
        owned := BoundObject(Node(o.kind, o.name, o.uid, found.value.value.owners), depth + 1);
        if owned != Some(false) {
          return;
        }
      }
      return Some(false);
    }
  }

  // ---- The Pods of a request ----

  /** A listed Pod; an empty label is a missing one. */
  datatype PodItem = PodItem(name: string, uid: string, owners: seq<Owner>, tenant: string, service: string)

  /** No label claims the Pod for somebody else. */
  predicate NotForeign(p: PodItem, tenant: string, service: string) {
    (p.tenant == "" || p.tenant == tenant) && (p.service == "" || p.service == service)
  }

  function NodeOf(p: PodItem): Node {
    Node(Pod, p.name, p.uid, p.owners)
  }

  /** The Pods of the list that are owned, each judged by itself. */
  function Owned(scene: Scene, tenant: string, service: string, list: seq<PodItem>): Option<seq<PodItem>> {
    if list == [] then Some([])
    else
      var last, before := list[|list| - 1], Owned(scene, tenant, service, list[..|list| - 1]);
      if before.None? || !NotForeign(last, tenant, service) then before
      else
        match Verdict(scene, NodeOf(last), 0)
        case None => None
        case Some(owned) => if owned then Some(before.value + [last]) else before
  }

  /** Once a Pod cannot be judged, the request fails however many follow. */
  lemma {:induction false} FailureStays(scene: Scene, tenant: string, service: string, list: seq<PodItem>, n: nat)
    requires n <= |list| && Owned(scene, tenant, service, list[..n]).None?
    ensures Owned(scene, tenant, service, list).None?
    decreases |list|
  {
    if n < |list| {
      assert list[..|list| - 1][..n] == list[..n];
      FailureStays(scene, tenant, service, list[..|list| - 1], n);
    } else {
      assert list[..n] == list;
    }
  }

  function NameOf(p: PodItem): string {
    p.name
  }

  /** Lists the owned Pods in the order of their names; too long a list, or one with more to come, is refused. */
  method OwnedPods(scene: Scene, tenant: string, service: string, list: seq<PodItem>, more: bool, cancelled: nat -> bool)
    returns (pods: Option<seq<PodItem>>)
    ensures var owned := Owned(scene, tenant, service, list);
            && (pods.Some? ==> owned.Some? && SortedBy(pods.value, NameOf) && multiset(pods.value) == multiset(owned.value))
            && (pods.Some? ==> |list| <= 500 && !more)
            && (|list| <= 500 && !more && owned.Some? && (forall i :: !cancelled(i)) ==> pods.Some?)
  {
    if |list| > MAX_PODS || more {
      return None;
    }
    var walk := new Walk(scene, cancelled);
    var kept := [];
    for i := 0 to |list|
      invariant walk.Valid() && walk.scene == scene && walk.cancelled == cancelled && fresh(walk)
      invariant Owned(scene, tenant, service, list[..i]) == Some(kept)
    {
      assert list[..i + 1][..i] == list[..i];
      if !NotForeign(list[i], tenant, service) {
        continue;
      }
      var owned := walk.BoundObject(NodeOf(list[i]), 0);
      if owned.None? {
        if walk.Calm() {
          FailureStays(scene, tenant, service, list, i + 1);
        }
        return None;
      }
      if owned.value {
        kept := kept + [list[i]];
      }
    }
    assert list[..|list|] == list;
    pods := Some(Sorted(kept, NameOf));
  }

  lemma InSplit(list: seq<PodItem>, p: PodItem)
    requires list != []
    ensures p in list <==> p in list[..|list| - 1] || p == list[|list| - 1]
  {
  }

  /** On a readable snapshot exactly the listed Pods that no label claims otherwise and that a chain binds are returned. */
  lemma {:induction false} OwnedAreReachable(scene: Scene, tenant: string, service: string, list: seq<PodItem>, p: PodItem)
    requires Readable(scene)
    ensures Owned(scene, tenant, service, list).Some?
    ensures p in Owned(scene, tenant, service, list).value <==>
              && p in list && p.tenant in {"", tenant} && p.service in {"", service} && Reachable(scene, Node(Pod, p.name, p.uid, p.owners))
  {
    if list != [] {
      var n := |list| - 1;
      OwnedAreReachable(scene, tenant, service, list[..n], p);
      VerdictIsReachability(scene, NodeOf(list[n]));
      InSplit(list, p);
    }
  }

  ghost predicate Remembers(lookup: Lookup, known: Option<Object>) {
    match known
    case None => lookup.Missing?
    case Some(o) => lookup == Found(o)
  }

  ghost predicate Distinct(keys: seq<Key>) {
    forall i, j :: 0 <= i < j < |keys| ==> keys[i] != keys[j]
  }

  lemma DistinctExtends(keys: seq<Key>, k: Key)
    requires Distinct(keys) && k !in keys
    ensures Distinct(keys + [k])
  {
  }
}
