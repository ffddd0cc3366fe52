/** The owner references of a strategy placement when one of its strategies is deleted. */
module OwnerReferences {
  import opened Kube

  /** The last position of an owner, or -1. */
  function LastIndex(refs: seq<string>, uid: string): (i: int)
    ensures -1 <= i < |refs|
    ensures i >= 0 ==> refs[i] == uid
    ensures forall k :: i < k < |refs| ==> refs[k] != uid
  {
    if refs == [] then -1
    else if refs[|refs| - 1] == uid then |refs| - 1
    else LastIndex(refs[..|refs| - 1], uid)
  }

  /** The references that the placement keeps. */
  function Overwritten(refs: seq<string>, uid: string): seq<string> {
    var i := LastIndex(refs, uid);
    if i == -1 then refs else refs[i := refs[|refs| - 1]]
  }

  /** None is the run-time panic on a placement without owner references. */
  method IsLastOwnerReference(refs: array<string>, uid: string) returns (last: Option<bool>)
    ensures last.None? <==> refs.Length == 0
    ensures last.Some? ==> (last.value <==> refs[..] == [uid])
  {
    if refs.Length <= 1 {
      if refs.Length == 0 {
        return None;
      }
      return Some(refs[0] == uid);
    }
    return Some(false);
  }

  /** Overwrites the last occurrence in place and returns the shortened list. */
  method RemoveOwnerReference(refs: array<string>, uid: string) returns (rest: seq<string>)
    modifies refs
    ensures refs[..] == Overwritten(old(refs[..]), uid)
    ensures multiset(rest) == multiset(old(refs[..])) - multiset{uid}
  {
    ghost var was := refs[..];
    var index := -1;
    for i := 0 to refs.Length
      invariant -1 <= index < i
      invariant index >= 0 ==> refs[index] == uid
      invariant forall k :: index < k < i ==> refs[k] != uid
    {
      if refs[i] == uid {
        index := i;
      }
    }
    assert index == LastIndex(was, uid);
    if index == -1 {
      return refs[..];
    }
    refs[index] := refs[refs.Length - 1];
    rest := refs[..refs.Length - 1];
    assert refs[..] == was[index := was[|was| - 1]];
    ShortenedMultiset(was, index);
  }

  lemma ShortenedMultiset(refs: seq<string>, i: nat)
    requires i < |refs|
    ensures multiset(refs[i := refs[|refs| - 1]][..|refs| - 1]) == multiset(refs) - multiset{refs[i]}
    ensures multiset(refs[i := refs[|refs| - 1]]) == multiset(refs) - multiset{refs[i]} + multiset{refs[|refs| - 1]}
  {
    var n := |refs| - 1;
    var t := refs[i := refs[n]];
    assert refs == refs[..n] + [refs[n]] && t == t[..n] + [refs[n]];
    if i < n {
      assert t[..n] == refs[..n][i := refs[n]];
    }
  }

  /** What a deletion pass does with the placement of the strategy. */
  datatype Fate = NotFound | Deleted | Updated | Panicked

  /** processStrategyDeletion on the references of the placement that was found. The shortened list
      is dropped, so the update stores the overwritten one. */
  method ReleasePlacement(refs: array<string>, uid: string) returns (fate: Fate)
    modifies refs
    ensures fate == FateOf(old(refs[..]), uid)
    ensures refs[..] == if fate.Updated? then Overwritten(old(refs[..]), uid) else old(refs[..])
  {
    var last := IsLastOwnerReference(refs, uid);
    if last.None? {
      return Panicked;
    }
    if last.value {
      return Deleted;
    }
    var _ := RemoveOwnerReference(refs, uid);
    fate := Updated;
  }

  function FateOf(refs: seq<string>, uid: string): Fate {
    if refs == [] then Panicked else if refs == [uid] then Deleted else Updated
  }

  /** The strategy is no longer an owner after the update exactly when it was none before, or was
      listed once and not at the end. The list is as long as before, and the last owner takes the
      place of the one that leaves. */
  lemma RemovedExactly(refs: seq<string>, uid: string)
    ensures |Overwritten(refs, uid)| == |refs|
    ensures uid !in Overwritten(refs, uid) <==>
              uid !in refs || (multiset(refs)[uid] == 1 && refs[|refs| - 1] != uid)
    ensures uid in refs ==>
              multiset(Overwritten(refs, uid)) == multiset(refs) - multiset{uid} + multiset{refs[|refs| - 1]}
  {
    var i := LastIndex(refs, uid);
    if i >= 0 {
      ShortenedMultiset(refs, i);
      var m := multiset(Overwritten(refs, uid));
      assert uid in Overwritten(refs, uid) <==> m[uid] > 0;
    }
  }

  /** The references after the strategies `uids` have been deleted one after the other. */
  function AfterDeletions(refs: seq<string>, uids: seq<string>): seq<string> {
    if uids == [] then refs else Overwritten(AfterDeletions(refs, uids[..|uids| - 1]), uids[|uids| - 1])
  }

  /** So however many strategies are deleted, a placement with two owners or more keeps as many, and no
      deletion pass finds a last owner and deletes it. */
  lemma {:induction false} SharedPlacementStays(refs: seq<string>, uids: seq<string>, uid: string)
    requires |refs| >= 2
    ensures |AfterDeletions(refs, uids)| == |refs| && FateOf(AfterDeletions(refs, uids), uid) == Updated
  {
    if uids != [] {
      SharedPlacementStays(refs, uids[..|uids| - 1], uid);
      RemovedExactly(AfterDeletions(refs, uids[..|uids| - 1]), uids[|uids| - 1]);
    }
  }
}
