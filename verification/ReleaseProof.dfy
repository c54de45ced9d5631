/** The release evidence of a managed GPU: a validated absence fact and the UID-sorted Pod scope. */
module ReleaseProof {
  import opened Text
  import opened Sorting

  /** The complete identity of a Pod that held the managed GPU. */
  datatype PodRef = PodRef(cluster: string, namespace: string, name: string, uid: string, container: string)

  /** The absence fact the evidence is derived from. */
  datatype Input = Input(tenant: string, resource: string, createOperation: string, deleteOperation: string, sealedAt: string, pods: seq<PodRef>)

  /** The evidence before hashing: an id named after the delete operation, and the payload that is digested. */
  datatype Proof = Proof(evidenceFor: string, payload: Input)

  predicate CompletePod(p: PodRef) {
    !Blank(p.cluster) && !Blank(p.namespace) && !Blank(p.name) && !Blank(p.uid) && !Blank(p.container)
  }

  ghost predicate DistinctUids(pods: seq<PodRef>) {
    forall i, j :: 0 <= i < j < |pods| ==> pods[i].uid != pods[j].uid
  }

  ghost predicate ValidPods(pods: seq<PodRef>) {
    (forall i :: 0 <= i < |pods| ==> Named(pods[i])) && DistinctUids(pods)
  }

  /** No part of the identity is missing. */
  ghost predicate Named(p: PodRef) {
    forall part :: part in {p.cluster, p.namespace, p.name, p.uid, p.container} ==> !Blank(part)
  }

  /** `timestamp` recognises RFC 3339 timestamps. */
  ghost predicate ValidInput(input: Input, timestamp: string -> bool) {
    && !Blank(input.tenant) && !Blank(input.resource) && !Blank(input.createOperation) && !Blank(input.deleteOperation)
    && !Blank(input.sealedAt) && timestamp(input.sealedAt)
    && ValidPods(input.pods)
  }

  ghost function Uids(pods: seq<PodRef>): set<string> {
    set p | p in pods :: p.uid
  }

  lemma CompleteIsNamed(p: PodRef)
    ensures CompletePod(p) <==> Named(p)
  {
    if Named(p) {
      assert p.cluster in {p.cluster, p.namespace, p.name, p.uid, p.container};
      assert p.namespace in {p.cluster, p.namespace, p.name, p.uid, p.container};
      assert p.name in {p.cluster, p.namespace, p.name, p.uid, p.container};
      assert p.uid in {p.cluster, p.namespace, p.name, p.uid, p.container};
      assert p.container in {p.cluster, p.namespace, p.name, p.uid, p.container};
    }
  }

  lemma ValidPodsAppend(pods: seq<PodRef>, pod: PodRef)
    ensures ValidPods(pods + [pod]) <==> ValidPods(pods) && Named(pod) && pod.uid !in Uids(pods)
  {
    var all := pods + [pod];
    assert all[|pods|] == pod && all[..|pods|] == pods;
    if ValidPods(all) {
      assert forall i :: 0 <= i < |pods| ==> all[i] == pods[i];
    }
  }

  lemma UidsAppend(pods: seq<PodRef>, pod: PodRef)
    ensures Uids(pods + [pod]) == Uids(pods) + {pod.uid}
  {
  }

  lemma ValidPodsPrefix(pods: seq<PodRef>, n: nat)
    requires ValidPods(pods) && n <= |pods|
    ensures ValidPods(pods[..n])
  {
  }

  method ValidatePods(pods: seq<PodRef>) returns (ok: bool)
    ensures ok <==> ValidPods(pods)
  {
    var seen: set<string> := {};
    ok := true;
    for i := 0 to |pods|
      invariant ok && ValidPods(pods[..i]) && seen == Uids(pods[..i])
    {
      assert pods[..i + 1] == pods[..i] + [pods[i]];
      ValidPodsAppend(pods[..i], pods[i]);
      UidsAppend(pods[..i], pods[i]);
      CompleteIsNamed(pods[i]);
      if !CompletePod(pods[i]) || pods[i].uid in seen {
        if ValidPods(pods) { ValidPodsPrefix(pods, i + 1); }
        return false;
      }
      seen := seen + {pods[i].uid};
    }
    assert pods[..|pods|] == pods;
  }

  method ValidateReleaseProofInput(input: Input, timestamp: string -> bool) returns (ok: bool)
    ensures ok <==> ValidInput(input, timestamp)
  {
    if Blank(input.tenant) || Blank(input.resource) || Blank(input.createOperation) || Blank(input.deleteOperation) || Blank(input.sealedAt) {
      return false;
    }
    if !timestamp(input.sealedAt) {
      return false;
    }
    ok := ValidatePods(input.pods);
  }

  function Uid(p: PodRef): string {
    p.uid
  }

  /** The evidence of an input: its identities with the Pods in UID order. */
  ghost predicate IsPayload(input: Input, payload: Input) {
    && payload == input.(pods := payload.pods)
    && SortedBy(payload.pods, Uid) && multiset(payload.pods) == multiset(input.pods)
  }

  method NewReleaseProof(input: Input, timestamp: string -> bool) returns (proof: Option<Proof>)
    ensures proof.Some? <==> ValidInput(input, timestamp)
    ensures proof.Some? ==> proof.value.evidenceFor == input.deleteOperation && IsPayload(input, proof.value.payload)
  {
    var ok := ValidateReleaseProofInput(input, timestamp);
    if !ok {
      return None;
    }
    proof := Some(Proof(input.deleteOperation, input.(pods := Sorted(input.pods, Uid))));
  }

  // ---- One payload per input ----

  lemma PermutedUids(a: seq<PodRef>, b: seq<PodRef>)
    requires DistinctUids(a) && multiset(a) == multiset(b)
    ensures Telling(b, Uid)
  {
    forall i, j | 0 <= i < |b| && 0 <= j < |b| && Uid(b[i]) == Uid(b[j]) ensures b[i] == b[j] {
      assert b[i] in multiset(b) && b[j] in multiset(b);
      assert b[i] in a && b[j] in a;
    }
  }

  /**
   The payloads of two valid inputs are equal exactly when the inputs name the same operation and seal
   and hold the same Pods: reordering the Pods changes nothing, and no two different facts share evidence.
   */
  lemma PayloadIdentifiesInput(a: Input, b: Input, pa: Input, pb: Input, timestamp: string -> bool)
    requires ValidInput(a, timestamp) && ValidInput(b, timestamp) && IsPayload(a, pa) && IsPayload(b, pb)
    ensures pa == pb <==> (a.(pods := []) == b.(pods := []) && multiset(a.pods) == multiset(b.pods))
  {
    if a.(pods := []) == b.(pods := []) && multiset(a.pods) == multiset(b.pods) {
      PermutedUids(a.pods, pa.pods);
      SortedOrderUnique(pa.pods, pb.pods, Uid);
    }
  }
}
