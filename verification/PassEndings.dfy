/** When the passes of the ClusterOAuth controller succeed, in both directions: what has to be there, and
    how many writes it takes. */
module PassEndings {
  import opened Kube
  import opened ClusterState
  import opened Aggregation
  import opened ClusterOAuthController
  import PushProperties
  import RestoringLimits

  predicate SecretsThere(s: Cluster) {
    forall n <- SecretSources(s.oauths) :: n in s.secrets
  }

  // ----- hosted clusters -----

  /** Saving takes the one deployment and one write, unless a backup is there. */
  lemma HostedSaveEnds(s: Cluster, writes: nat)
    ensures var p := H.SavePass(s, writes);
            && p.outcome in {Done, Failed}
            && (p.outcome.Done? <==> s.backup.Some? || (|s.deployments| == 1 && writes > 0))
            && p.writes == (if p.outcome.Done? && s.backup.None? then writes - 1 else if s.backup.Some? then writes
                            else if |s.deployments| == 1 then 0 else writes)
            && p.after == s.(backup := p.after.backup)
  {
  }

  lemma {:induction false} CopyEnds(ns: string, secrets: map<string, string>, copied: map<string, string>,
                                    names: seq<string>, writes: nat)
    ensures var c := H.CopySecrets(ns, secrets, copied, names, writes);
            && (c.ok <==> (forall n <- names :: n in secrets) && |names| <= writes)
            && (c.ok ==> c.writes == writes - |names|)
    decreases |names|
  {
    if names != [] {
      assert names == [names[0]] + names[1..];
      if names[0] in secrets && writes > 0 {
        CopyEnds(ns, secrets, copied[PushedName(ns, names[0]) := secrets[names[0]]], names[1..], writes - 1);
      }
    }
  }

  /** Pushing takes the managed cluster, its one deployment, every client secret, and one write per secret
      and one for the deployment. Before the last one the deployment is as it was. */
  lemma HostedPushEnds(s: Cluster, writes: nat)
    ensures var p := H.PushPass(s, writes);
            && (p.outcome.Done? <==>
                  s.managed && |s.deployments| == 1 && SecretsThere(s) && |SecretSources(s.oauths)| < writes)
            && (p.outcome.Done? ==> p.writes == writes - |SecretSources(s.oauths)| - 1)
            && (!p.outcome.Done? ==> p.outcome.Failed? && p.after == s.(copied := p.after.copied))
  {
    CopyEnds(s.ns, s.secrets, s.copied, SecretSources(s.oauths), writes);
  }

  // ----- clusters reached through ManifestWorks -----

  predicate Viewed(s: Cluster) {
    s.view.Some? && s.view.value.result.Some?
  }

  /** Saving never takes more than three writes, and without a result of the view it asks for a delay. */
  lemma SaveEnds(s: Cluster, writes: nat)
    ensures var p, needed := B.SavePass(s, writes), if s.backup.Some? then 0 else if Viewed(s) then 3 else 1;
            && (p.outcome.Failed? <==> writes < needed)
            && (p.outcome.RequeueAfter? <==> writes >= needed && s.backup.None? && !Viewed(s))
            && (!p.outcome.Failed? ==> p.writes == writes - needed)
            && p.outcome in {Done, RequeueAfter, Failed}
            && p.after == s.(backup := p.after.backup, view := p.after.view)
  {
  }

  /** Pushing takes every client secret and one write. */
  lemma PushEnds(s: Cluster, writes: nat)
    ensures var p := B.PushPass(s, writes);
            && (p.outcome.Done? <==> SecretsThere(s) && writes > 0)
            && (!p.outcome.Done? ==> p.outcome.Failed? && p.after == s)
  {
    PushProperties.ManifestsComplete(s.ns, s.secrets, [AggregatedRole], SecretSources(s.oauths));
  }

  // ----- the controller -----

  /** The writes of a processing pass that saves and pushes. */
  function WritesToProcess(s: Cluster, t: StrategyType): nat {
    1 + match t
        case Hypershift => (if s.backup.Some? then 0 else 1) + |SecretSources(s.oauths)| + 1
        case Backplane => (if s.backup.Some? then 0 else if Viewed(s) then 3 else 1) + 1
        case Grc => 0
  }

  function Finalized(s: Cluster, i: nat): Cluster
    requires i < |s.oauths|
  {
    s.(oauths := s.oauths[i := s.oauths[i].(finalizer := true)])
  }

  /** Processing succeeds exactly when the strategy is there and supported, every client secret is there, a
      hosted cluster is managed and has its one deployment, and the writes suffice. Nothing happens before
      the finalizer is set. */
  lemma ProcessEnds(s: Cluster, writes: nat, i: nat)
    requires i < |s.oauths|
    ensures var p, c := ProcessPass(s, writes, i), s.oauths[i];
            && (p.outcome.Done? <==>
                  && c.strategy.Some? && !c.strategy.value.Grc? && SecretsThere(s)
                  && (c.strategy.value.Hypershift? ==> s.managed && |s.deployments| == 1)
                  && WritesToProcess(s, c.strategy.value) <= writes)
            && (!p.outcome.Done? ==> p.outcome.Failed?)
            && (p.after == s || (|p.after.oauths| == |s.oauths| && p.after.oauths[i].finalizer))
  {
    ProcessKeepsCount(s, writes, i);
    if writes > 0 && s.oauths[i].strategy.Some? {
      RestoringLimits.SameSources(s.oauths, i);
      match s.oauths[i].strategy.value
      case Hypershift => HostedProcessEnds(s, writes, i);
      case Backplane => WorkProcessEnds(s, writes, i);
      case Grc =>
    }
  }

  lemma HostedProcessEnds(s: Cluster, writes: nat, i: nat)
    requires i < |s.oauths| && writes > 0 && s.oauths[i].strategy == Some(Hypershift)
    requires SecretSources(Finalized(s, i).oauths) == SecretSources(s.oauths)
    ensures var p := ProcessPass(s, writes, i);
            && (p.outcome.Done? <==> SecretsThere(s) && s.managed && |s.deployments| == 1 &&
                                     WritesToProcess(s, Hypershift) <= writes)
            && (!p.outcome.Done? ==> p.outcome.Failed?) && p.after.oauths == Finalized(s, i).oauths
  {
    var t := Finalized(s, i);
    var q := H.SavePass(t, writes - 1);
    HostedSaveEnds(t, writes - 1);
    HostedPushEnds(q.after, q.writes);
  }

  lemma WorkProcessEnds(s: Cluster, writes: nat, i: nat)
    requires i < |s.oauths| && writes > 0 && s.oauths[i].strategy == Some(Backplane)
    requires SecretSources(Finalized(s, i).oauths) == SecretSources(s.oauths)
    ensures var p := ProcessPass(s, writes, i);
            && (p.outcome.Done? <==> SecretsThere(s) && WritesToProcess(s, Backplane) <= writes)
            && (!p.outcome.Done? ==> p.outcome.Failed?) && p.after.oauths == Finalized(s, i).oauths
  {
    var t := Finalized(s, i);
    var q := B.SavePass(t, writes - 1);
    WorkProcessIs(s, writes, i);
    SaveEnds(t, writes - 1);
    PushAfterSave(t, q.after, q.writes);
  }

  lemma WorkProcessIs(s: Cluster, writes: nat, i: nat)
    requires i < |s.oauths| && writes > 0 && s.oauths[i].strategy == Some(Backplane)
    ensures var q := B.SavePass(Finalized(s, i), writes - 1);
            ProcessPass(s, writes, i) == if q.outcome.Failed? then q else B.PushPass(q.after, q.writes)
  {
  }

  lemma PushAfterSave(s: Cluster, t: Cluster, writes: nat)
    requires t == s.(backup := t.backup, view := t.view)
    ensures var p := B.PushPass(t, writes);
            && (p.outcome.Done? <==> SecretsThere(s) && writes > 0)
            && (!p.outcome.Done? ==> p.outcome.Failed?) && p.after.oauths == s.oauths
  {
    PushEnds(t, writes);
  }

  // ----- the last leave -----

  /** The writes of a last leave, with the release. */
  function WritesToLeave(s: Cluster): nat {
    1 + if s.hosted then
          if s.backup.None? || |s.deployments| != 1 || H.FirstNamed(s.deployments[0].Items(), H.OAUTH_NAME) == -1 then 0
          else 2
        else
          (if Live(s, OAUTH_WORK) then 1 else 0) + (if s.backup.Some? then 2 else 0)
          + (if Live(s, ORIGINAL_WORK) then 1 else 0)
  }

  predicate Live(s: Cluster, work: string) {
    work in s.works && !s.works[work].deleting
  }

  lemma DeleteEnds(s: Cluster, writes: nat, name: string)
    ensures var p := B.DeleteWorkPass(s, writes, name);
            && (p.outcome.Done? <==> !Live(s, name) || writes > 0)
            && (!p.outcome.Done? ==> p.outcome.Failed? && p.after == s)
            && (p.outcome.Done? ==> p.writes == writes - if Live(s, name) then 1 else 0)
            && p.after.backup == s.backup
            && forall w :: w != name ==>
                 (w in p.after.works <==> w in s.works) && (w in s.works ==> p.after.works[w] == s.works[w])
  {
  }

  /** The restore branch of a cluster reached through works. */
  lemma RestoreEnds(s: Cluster, writes: nat)
    ensures var p := B.RestorePass(s, writes);
            && (p.outcome.Done? <==>
                  && (s.backup.Some? ==> ORIGINAL_WORK in s.works && s.works[ORIGINAL_WORK].applied.Some?)
                  && WritesToLeave(s.(hosted := false)) <= writes + 1)
            && (p.outcome.Done? ==> p.writes == writes + 1 - WritesToLeave(s.(hosted := false)))
            && (!p.outcome.Done? ==> p.outcome.Failed?)
  {
    var p := B.DeleteWorkPass(s, writes, OAUTH_WORK);
    DeleteEnds(s, writes, OAUTH_WORK);
    if p.outcome.Done? && s.backup.Some? {
      var q := B.RestoreOriginalPass(p.after, p.writes);
      OriginalEnds(p.after, p.writes);
      DeleteEnds(q.after, q.writes, ORIGINAL_WORK);
    } else if p.outcome.Done? {
      DeleteEnds(p.after, p.writes, ORIGINAL_WORK);
    }
  }

  lemma OriginalEnds(s: Cluster, writes: nat)
    requires s.backup.Some?
    ensures var p := B.RestoreOriginalPass(s, writes);
            && (p.outcome.Done? <==>
                  ORIGINAL_WORK in s.works && s.works[ORIGINAL_WORK].applied.Some? && writes >= 2)
            && (!p.outcome.Done? ==> p.outcome.Failed?)
            && (p.outcome.Done? ==>
                p.writes == writes - 2 && (Live(p.after, ORIGINAL_WORK) <==> Live(s, ORIGINAL_WORK)))
  {
  }

  /** The last leave succeeds exactly when it can be reported, the cluster is managed, what restores is
      there, and the writes suffice. */
  lemma LastLeaveEnds(s: Cluster, c: ClusterOAuth, writes: nat, reported: bool)
    requires s.oauths == [c] && c.deleting
    ensures ReconcilePass(s, writes, c.name, reported).outcome.Done? <==>
              && reported && s.managed
              && (if s.hosted then |s.deployments| == 1
                  else s.backup.Some? ==> ORIGINAL_WORK in s.works && s.works[ORIGINAL_WORK].applied.Some?)
              && WritesToLeave(s) <= writes
  {
    assert FindOAuth(s.oauths, c.name) == 0 && H.LastLeaver(s);
    if !s.hosted {
      RestoreEnds(s, writes);
    }
  }

  /** Any other leave pushes what is left, and succeeds exactly when that does and a write is left for the
      release. */
  lemma EarlierLeaveEnds(s: Cluster, writes: nat, name: string, reported: bool)
    requires FindOAuth(s.oauths, name) != -1 && s.oauths[FindOAuth(s.oauths, name)].deleting && |s.oauths| != 1
    ensures ReconcilePass(s, writes, name, reported).outcome.Done? <==>
              && reported && s.managed && SecretsThere(s)
              && (if s.hosted then |s.deployments| == 1 && |SecretSources(s.oauths)| + 2 <= writes else 2 <= writes)
  {
    if s.hosted {
      HostedPushEnds(s, writes);
    } else {
      PushEnds(s, writes);
    }
  }

  /** A pass that ends well has reported, unless there was nothing to do. */
  lemma DoneIsReported(s: Cluster, writes: nat, name: string, reported: bool)
    requires ReconcilePass(s, writes, name, reported).outcome.Done?
    ensures reported || FindOAuth(s.oauths, name) == -1
  {
  }
}
