/** Where the promises about the original OAuth stop: for each, the exact condition under which the
    code keeps it, or an input on which it does not. */
module RestoringLimits {
  import opened Kube
  import opened ClusterState
  import opened Aggregation
  import opened ClusterEvents
  import opened ClusterOAuthController
  import opened Restoring

  // ----- hosted clusters: a backup that is left behind -----

  /** Leaving a cluster keeps the backup exactly when there is no item to put it into. */
  lemma LeftoverBackup(s: Cluster, writes: nat)
    requires s.hosted && H.LastLeaver(s) && !UnmanagePass(s, writes).outcome.Failed?
    ensures UnmanagePass(s, writes).after.backup.Some? <==>
            s.backup.Some? && H.FirstNamed(s.deployments[0].Items(), H.OAUTH_NAME) == -1
  {
  }

  // ----- clusters reached through ManifestWorks -----

  /** A first pass pushes even when nothing is saved yet: the backup exists afterwards exactly when
      it existed before or the view already had a result. */
  lemma PushedUnsaved(s: Cluster, writes: nat, i: nat)
    requires i < |s.oauths| && !s.oauths[i].deleting && s.oauths[i].strategy == Some(Backplane)
    requires B.PushedManifests(s).Some? && writes >= 5
    ensures var p := ProcessPass(s, writes, i);
            && p.outcome.Done? && OAUTH_WORK in p.after.works
            && (p.after.backup.Some? <==> s.backup.Some? || (s.view.Some? && s.view.value.result.Some?))
  {
    var t := s.(oauths := s.oauths[i := s.oauths[i].(finalizer := true)]);
    SameSources(s.oauths, i);
    var q := B.SavePass(t, writes - 1);
    assert q.after.oauths == t.oauths && q.after.secrets == s.secrets && q.after.ns == s.ns && q.writes >= 1;
  }

  lemma {:induction false} SameSources(oauths: seq<ClusterOAuth>, i: nat)
    requires i < |oauths|
    ensures SecretSources(oauths[i := oauths[i].(finalizer := true)]) == SecretSources(oauths)
  {
    var changed := oauths[i := oauths[i].(finalizer := true)];
    if i == 0 {
      assert changed[1..] == oauths[1..];
    } else {
      assert changed[1..] == oauths[1..][i - 1 := oauths[1..][i - 1].(finalizer := true)];
      SameSources(oauths[1..], i - 1);
    }
  }

  /** The Applied condition that lets the backup go is the one the work had before the pass wrote
      the original into it, whatever manifests it was set for. */
  lemma AppliedReadBeforehand(s: Cluster, writes: nat)
    requires !s.hosted && B.LastLeaver(s) && s.backup.Some? && writes >= 4
    ensures UnmanagePass(s, writes).after.backup.None? <==>
        ORIGINAL_WORK in s.works && s.works[ORIGINAL_WORK].applied.Some?
  {
    var p := B.DeleteWorkPass(s, writes, OAUTH_WORK);
    assert p.writes >= 3 && p.after.backup == s.backup;
    assert ORIGINAL_WORK in p.after.works <==> ORIGINAL_WORK in s.works;
    assert ORIGINAL_WORK in s.works ==> p.after.works[ORIGINAL_WORK] == s.works[ORIGINAL_WORK];
  }

  /** A last leaver that finds an Applied condition of other manifests, or lets the agent set one, gives
      the original up on that. */
  lemma StaleMisleads(s: Cluster, c: ClusterOAuth) returns (es: seq<Event>, k: nat)
    requires !s.hosted && s.managed && s.oauths == [c] && c.deleting && s.backup.Some? && !Fresh(s)
    ensures k < |es| && !Confirmed(s, es, k)
  {
    var work, e := s.works[ORIGINAL_WORK], Reconcile(c.name, 5, true);
    if work.applied !in {None, Some(B.OriginalManifests(s.backup.value))} {
      es, k := [e], 0;
      assert es[..0] == [];
      GivesUp(s, c);
      BackupSurvives(s, e);
    } else {
      es, k := [AgentApplies(ORIGINAL_WORK), e], 1;
      var t := AfterApplying(s, ORIGINAL_WORK);
      assert es[..0] == [] && es[..1] == [es[0]];
      RunOne(s, es[0]);
      GivesUp(t, c);
      BackupSurvives(t, e);
    }
  }

  lemma GivesUp(s: Cluster, c: ClusterOAuth)
    requires !s.hosted && s.managed && s.oauths == [c] && c.deleting && s.backup.Some?
    requires ORIGINAL_WORK in s.works && s.works[ORIGINAL_WORK].applied.Some?
    ensures Step(s, Reconcile(c.name, 5, true)).backup.None?
  {
    AppliedReadBeforehand(s, 5);
    assert FindOAuth(s.oauths, c.name) == 0;
  }

  /** For a last leaver: no run gives the original up on the Applied condition of other manifests exactly
      when no such condition is there or can come. */
  lemma FreshExactly(s: Cluster, c: ClusterOAuth)
    requires !s.hosted && s.managed && s.oauths == [c] && c.deleting && s.backup.Some?
    ensures Fresh(s) <==> forall es: seq<Event>, k: nat :: k < |es| ==> Confirmed(s, es, k)
  {
    if Fresh(s) {
      forall es: seq<Event>, k: nat | k < |es| ensures Confirmed(s, es, k) {
        FreshIsConfirmed(s, es, k);
      }
    } else {
      var es, k := StaleMisleads(s, c);
    }
  }

  // ----- a ClusterOAuth that was never processed -----

  const MANAGED := ClusterOAuth("a", [], Some(Hypershift), true, true)
  const UNPROCESSED := ClusterOAuth("b", [], Some(Hypershift), false, false)
  const ORIGINAL := Decodable("OAuth", "cluster", Foreign("github"), 0)
  const PUSHED := Decodable("OAuth", "cluster", Providers([]), 0)

  /** A hosted cluster that one ClusterOAuth is leaving while another one waits for its first pass. */
  const LEAVING := Cluster("c1", true, true, [MANAGED, UNPROCESSED], map[], Some(Backup(Some(ORIGINAL))), None,
                           [Deployment(Some(Configuration([PUSHED], [])))], map[], map[], PUSHED)

  lemma LeavingPushes()
    ensures H.PushPass(LEAVING, 9) == Pass(LEAVING, 8, Done)
  {
    var oauths := LEAVING.oauths;
    assert oauths[1..] == [UNPROCESSED] && [UNPROCESSED][1..] == [];
    assert SecretSources([UNPROCESSED]) == Repeated("b", 0) + SecretSources([]);
    assert LiveProviders("c1", [UNPROCESSED]) == PrefixedAll("c1", []) + LiveProviders("c1", []);
    assert SecretSources(oauths) == [] && LiveProviders("c1", oauths) == [];
    assert H.RefsAfter("c1", [], MANAGED) == [] && H.RefsAfter("c1", [], UNPROCESSED) == [];
    assert H.PushedRefs("c1", [], [UNPROCESSED]) == H.PushedRefs("c1", [], []);
    assert H.PushedRefs("c1", [], oauths) == [];
    assert [PUSHED][0 := PUSHED] == [PUSHED];
  }

  /** Without the finalizer on both, the last one leaves without a pass: the namespace is empty, the
      operator's OAuth is in place and the original is only in the backup. */
  lemma UnprocessedLeavesUnrestored()
    ensures Run(LEAVING, [Reconcile("a", 9, true), DeleteOAuth("b")]) == LEAVING.(oauths := [])
  {
    var es := [Reconcile("a", 9, true), DeleteOAuth("b")];
    var t := LEAVING.(oauths := [UNPROCESSED]);
    LeavingPushes();
    assert Drop(LEAVING.oauths, 0) == [UNPROCESSED];
    assert Step(LEAVING, es[0]) == t;
    assert Drop(t.oauths, 0) == [] && Step(t, es[1]) == t.(oauths := []);
    RunPrefix(LEAVING, es, 0);
    RunPrefix(LEAVING, es, 1);
    assert es[..0] == [] && es[..2] == es;
  }

  /** Deleting the only ClusterOAuth empties the namespace at once exactly when it has no finalizer,
      and then leaves everything else as it is. */
  lemma LeavesWithoutPass(s: Cluster, c: ClusterOAuth)
    requires s.oauths == [c]
    ensures Step(s, DeleteOAuth(c.name)).oauths == [] <==> !c.finalizer
    ensures !c.finalizer ==> Step(s, DeleteOAuth(c.name)) == s.(oauths := [])
  {
    assert FindOAuth(s.oauths, c.name) == 0 && Drop(s.oauths, 0) == [];
  }
}
