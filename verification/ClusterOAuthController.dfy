/** One pass of the ClusterOAuth controller: the finalizer life cycle and the choice of manager. */
module ClusterOAuthController {
  import opened Kube
  import opened ClusterState
  import H = HypershiftManager
  import B = BackplaneManager

  /** By strategy type when a ClusterOAuth is processed. */
  function SavePass(t: StrategyType, s: Cluster, writes: nat): Pass {
    match t
    case Hypershift => H.SavePass(s, writes)
    case Backplane => B.SavePass(s, writes)
    case Grc => Pass(s, writes, Failed)
  }

  function PushPass(t: StrategyType, s: Cluster, writes: nat): Pass {
    match t
    case Hypershift => H.PushPass(s, writes)
    case Backplane => B.PushPass(s, writes)
    case Grc => Pass(s, writes, Failed)
  }

  function ProcessPass(s: Cluster, writes: nat, i: nat): Pass
    requires i < |s.oauths|
  {
    var c := s.oauths[i];
    var p := Written(s, writes, s.(oauths := s.oauths[i := c.(finalizer := true)]));
    if p.outcome.Failed? || c.strategy.None? then p.(outcome := Failed)
    else
      var q := SavePass(c.strategy.value, p.after, p.writes);
      if q.outcome.Failed? then q else PushPass(c.strategy.value, q.after, q.writes)
  }

  /** By the hosting annotation when it is deleted. */
  function UnmanagePass(s: Cluster, writes: nat): Pass {
    if s.hosted then H.UnmanagePass(s, writes) else B.UnmanagePass(s, writes)
  }

  function DeletePass(s: Cluster, writes: nat, i: nat, reported: bool): Pass
    requires i < |s.oauths|
  {
    if !reported || !s.managed then Pass(s, writes, Failed)
    else
      var p := UnmanagePass(s, writes);
      if p.outcome.Failed? then p
      else Written(p.after, p.writes, p.after.(oauths := Drop(s.oauths, i)))
  }

  /** A pass whose result cannot be reported in the status ends with an error. */
  function Reported(p: Pass, reported: bool): Pass {
    if reported then p else p.(outcome := Failed)
  }

  /** One pass for the ClusterOAuth called `name`, cut short after `writes` writes. */
  function ReconcilePass(s: Cluster, writes: nat, name: string, reported: bool): Pass {
    var i := FindOAuth(s.oauths, name);
    if i == -1 then Pass(s, writes, Done)
    else if s.oauths[i].deleting then DeletePass(s, writes, i, reported)
    else Reported(ProcessPass(s, writes, i), reported)
  }

  /** Managing a cluster never touches the list of ClusterOAuths, and Save never asks for a requeue
      in the way that its caller tests. */
  lemma UnmanageKeepsOAuths(s: Cluster, writes: nat)
    ensures UnmanagePass(s, writes).after.oauths == s.oauths
    ensures UnmanagePass(s, writes).outcome in {Done, Failed}
  {
    if s.hosted {
      assert H.RestorePass(s, writes).after.oauths == s.oauths;
    } else {
      RestoreKeepsOAuths(s, writes);
    }
  }

  lemma RestoreKeepsOAuths(s: Cluster, writes: nat)
    ensures B.RestorePass(s, writes).after.oauths == s.oauths && B.RestorePass(s, writes).outcome in {Done, Failed}
  {
    var p := B.DeleteWorkPass(s, writes, OAUTH_WORK);
    assert p.after.oauths == s.oauths && p.after.backup == s.backup;
    if s.backup.Some? {
      assert B.RestoreOriginalPass(p.after, p.writes).after.oauths == s.oauths;
    }
  }

  lemma SaveKeepsOAuths(t: StrategyType, s: Cluster, writes: nat)
    ensures SavePass(t, s, writes).after.oauths == s.oauths
    ensures SavePass(t, s, writes).outcome in {Done, RequeueAfter, Failed}
    ensures SavePass(t, s, writes).outcome.RequeueAfter? ==> t.Backplane?
  {
  }

  lemma PushKeepsOAuths(t: StrategyType, s: Cluster, writes: nat)
    ensures PushPass(t, s, writes).after.oauths == s.oauths
  {
  }

  lemma ProcessKeepsCount(s: Cluster, writes: nat, i: nat)
    requires i < |s.oauths|
    ensures |ProcessPass(s, writes, i).after.oauths| == |s.oauths|
  {
    var p := Written(s, writes, s.(oauths := s.oauths[i := s.oauths[i].(finalizer := true)]));
    if s.oauths[i].strategy.Some? {
      var t := s.oauths[i].strategy.value;
      var q := SavePass(t, p.after, p.writes);
      SaveKeepsOAuths(t, p.after, p.writes);
      PushKeepsOAuths(t, q.after, q.writes);
    }
  }

  method Reconcile(store: ClusterStore, name: string, reported: bool) returns (outcome: Outcome)
    modifies store
    ensures Pass(store.State(), store.writes, outcome) ==
            ReconcilePass(old(store.State()), old(store.writes), name, reported)
  {
    var i := FindOAuth(store.oauths, name);
    if i == -1 {
      return Done;
    }
    var instance := store.oauths[i];
    UnmanageKeepsOAuths(store.State(), store.writes);
    if instance.deleting {
      outcome := DeleteClusterOAuth(store, reported);
      if outcome.Failed? || outcome.Requeue? {
        return;
      }
      instance := instance.(finalizer := false);
      var ok := store.UpdateOAuth(i, instance);
      return if ok then Done else Failed;
    }
    outcome := ProcessClusterOAuth(store, i);
    if !reported {
      return Failed;
    }
  }

  method DeleteClusterOAuth(store: ClusterStore, reported: bool) returns (outcome: Outcome)
    modifies store
    ensures Pass(store.State(), store.writes, outcome) ==
            if !reported || !old(store.managed) then Pass(old(store.State()), old(store.writes), Failed)
            else UnmanagePass(old(store.State()), old(store.writes))
  {
    if !reported || !store.managed {
      return Failed;
    }
    if store.hosted {
      outcome := H.Unmanage(store);
    } else {
      outcome := B.Unmanage(store);
    }
  }

  method ProcessClusterOAuth(store: ClusterStore, i: nat) returns (outcome: Outcome)
    requires i < |store.oauths| && !store.oauths[i].deleting
    modifies store
    ensures Pass(store.State(), store.writes, outcome) == ProcessPass(old(store.State()), old(store.writes), i)
  {
    var instance := store.oauths[i].(finalizer := true);
    var ok := store.UpdateOAuth(i, instance);
    if !ok || instance.strategy.None? {
      return Failed;
    }
    SaveKeepsOAuths(instance.strategy.value, store.State(), store.writes);
    match instance.strategy.value {
      case Hypershift => outcome := H.Save(store);
      case Backplane => outcome := B.Save(store);
      case Grc => return Failed;
    }
    if outcome.Failed? || outcome.Requeue? {
      return;
    }
    match instance.strategy.value {
      case Hypershift => ok := H.Push(store);
      case Backplane => ok := B.Push(store);
      case Grc => return Failed;
    }
    outcome := if ok then Done else Failed;
  }
}
