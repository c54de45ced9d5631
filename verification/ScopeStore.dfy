/**
 The store behind the release scope. A save reads the row, merges and writes it back in two statements;
 taken alone it is the merge the runner protocol relies on, overlapped by another save it is not.
 */
module ScopeStore {
  import opened Text
  import opened ReleaseProof
  import opened RunnerProtocol

  /** Adds the Pods that are new; a known UID must come with the identity it has. */
  method MergeReleasePods(existing: seq<PodRef>, incoming: seq<PodRef>) returns (merged: Option<seq<PodRef>>)
    requires DistinctUids(existing)
    ensures merged == MergePods(existing, incoming)
  {
    var all, byUid: map<string, PodRef> := existing, map[];
    for i := 0 to |existing|
      invariant byUid.Keys == Uids(existing[..i]) && forall u :: u in byUid ==> byUid[u].uid == u && byUid[u] in existing
    {
      assert existing[..i + 1] == existing[..i] + [existing[i]];
      UidsAppend(existing[..i], existing[i]);
      byUid := byUid[existing[i].uid := existing[i]];
    }
    assert existing[..|existing|] == existing;
    for i := 0 to |incoming|
      invariant DistinctUids(all) && MergePods(existing, incoming) == MergePods(all, incoming[i..])
      invariant byUid.Keys == Uids(all) && forall u :: u in byUid ==> byUid[u].uid == u && byUid[u] in all
    {
      var p := incoming[i];
      assert incoming[i..][0] == p && incoming[i..][1..] == incoming[i + 1..];
      if p.uid in byUid {
        KnownUid(all, byUid[p.uid], p);
        if byUid[p.uid] != p {
          return None;
        }
      } else {
        UidsAppend(all, p);
        byUid := byUid[p.uid := p];
        all := all + [p];
      }
    }
    merged := Some(all);
  }

  lemma KnownUid(all: seq<PodRef>, known: PodRef, p: PodRef)
    requires DistinctUids(all) && known in all && known.uid == p.uid
    ensures p in all <==> known == p
  {
  }

  /** No recorded Pod is forgotten, and without a new seal the old one stays. */
  ghost predicate NothingLost(before: Scope, after: Scope, seal: string) {
    before.pods <= after.pods && (seal == "" ==> after.seal == before.seal)
  }

  /** The row; a missing row is the empty scope. */
  class ScopeRow {
    var row: Scope

    /** One save; `meanwhile` is what another save wrote between this one's read and its write. */
    method Save(seal: string, pods: seq<PodRef>, meanwhile: Option<Scope>) returns (ok: bool)
      requires DistinctUids(row.pods)
      modifies this
      ensures ok <==> SavedScope(old(row), seal, pods).Some?
      ensures row == if ok then SavedScope(old(row), seal, pods).value else if meanwhile.Some? then meanwhile.value else old(row)
      ensures ok ==> DistinctUids(row.pods)
      ensures meanwhile.None? || meanwhile.value == old(row) ==> NothingLost(old(row), row, seal)
    {
      var read := row;
      if meanwhile.Some? {
        row := meanwhile.value;
      }
      var merged := MergeReleasePods(read.pods, pods);
      if merged.None? {
        return false;
      }
      row := Scope(if seal == "" then read.seal else seal, merged.value);
      ok := true;
    }
  }

  /** Nothing of the second scope is lost in the first. */
  ghost predicate Keeps(result: Scope, other: Scope) {
    result.seal == other.seal && forall p :: p in other.pods ==> p in result.pods
  }

  /** A save that starts from the row another wrote keeps it: no Pod is forgotten, and a seal stays unless replaced. */
  lemma SequentialSaveKeeps(row: Scope, seal: string, pods: seq<PodRef>)
    requires SavedScope(row, seal, pods).Some? && (seal == "" || seal == row.seal)
    ensures Keeps(SavedScope(row, seal, pods).value, row)
  {
  }

  /**
   A save overlapped by a write of `other` keeps that write exactly when it brings the same seal and
   every Pod that the write added.
   */
  lemma OverlappedSaveKeepsIff(row: Scope, seal: string, pods: seq<PodRef>, other: Scope)
    requires SavedScope(row, seal, pods).Some?
    ensures Keeps(SavedScope(row, seal, pods).value, other) <==>
              && other.seal == (if seal == "" then row.seal else seal)
              && forall p :: p in other.pods ==> p in row.pods || p in pods
  {
    var all := MergePods(row.pods, pods).value;
    assert forall p :: p in row.pods ==> p in all;
  }

  /** Two overlapping saves of different first Pods: the earlier write, seal included, is gone. */
  lemma OverlapLosesPod(a: PodRef, b: PodRef, seal: string)
    requires a.uid != b.uid && seal != ""
    ensures var empty := Scope("", []);
            var first := SavedScope(empty, seal, [a]);
            var second := SavedScope(empty, "", [b]);
            && first == Some(Scope(seal, [a])) && second == Some(Scope("", [b]))
            && !Keeps(second.value, first.value)
  {
    assert [a][1..] == [] && [b][1..] == [] && [] + [a] == [a] && [] + [b] == [b];
    assert MergePods([a], []) == Some([a]) && MergePods([b], []) == Some([b]);
    assert MergePods([], [a]) == MergePods([] + [a], [a][1..]);
    assert MergePods([], [b]) == MergePods([] + [b], [b][1..]);
  }
}
