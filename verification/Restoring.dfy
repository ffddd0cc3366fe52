/** For both managers: what has become of the original when the saved copy of it is given up, and exactly
    when the last ClusterOAuth to leave a cluster goes by a pass that has finished restoring. */
module Restoring {
  import opened Kube
  import opened ClusterState
  import opened Aggregation
  import opened ClusterEvents
  import opened ClusterOAuthController

  // ----- the original OAuth is never lost -----

  /** What the code sees in the middle of a restoring pass, just before the backup is deleted: the
      original written back into the deployment or, for the other manager, into a work that carries an
      Applied condition. */
  predicate OriginalWritten(s: Cluster, m: Cluster)
    requires s.backup.Some?
  {
    && m.backup == s.backup
    && if s.hosted then
         && |s.deployments| == 1
         && var items, i := s.deployments[0].Items(), H.FirstNamed(s.deployments[0].Items(), H.OAUTH_NAME);
            && i != -1
            && |m.deployments| == 1
            && m.deployments[0].Items() == H.RestoredItems(items, i, s.backup.value)
       else
         && ORIGINAL_WORK in m.works
         && HoldsOriginal(m.works[ORIGINAL_WORK].manifests, s.backup.value)
         && m.works[ORIGINAL_WORK].applied.Some?
  }

  /** The document that a backup stands for; without an entry it reads as `null`. */
  predicate Means(b: Backup, document: Raw) {
    if b.json.Some? then SameOAuth(document, b.json.value) else document == Undecodable("null")
  }

  /** What the backup holds is the OAuth of the cluster itself. */
  predicate OnCluster(s: Cluster, b: Backup) {
    Means(b, s.document)
  }

  /** The manifests that restore: the document of the backup, then the role that lets the agent apply it. */
  predicate HoldsOriginal(manifests: seq<Manifest>, b: Backup) {
    && |manifests| == 2 && manifests[0].Document? && Means(b, manifests[0].raw)
    && manifests[1] == AggregatedRole
  }

  /** The original is really back: written, and for a cluster reached through works, on the cluster. */
  predicate OriginalBack(s: Cluster, m: Cluster)
    requires s.backup.Some?
  {
    OriginalWritten(s, m) && (s.hosted || OnCluster(m, s.backup.value))
  }

  /** The Applied condition is for the very manifests that hold the original: the agent has applied them
      at some time, though perhaps not last. */
  predicate OriginalApplied(s: Cluster)
    requires s.backup.Some?
  {
    ORIGINAL_WORK in s.works && s.works[ORIGINAL_WORK].applied == Some(B.OriginalManifests(s.backup.value))
  }

  /** What the code takes for the word of the agent is about the original. */
  predicate OriginalConfirmed(s: Cluster, m: Cluster)
    requires s.backup.Some?
  {
    OriginalWritten(s, m) && (s.hosted || OriginalApplied(m))
  }

  lemma SaveKeepsBackup(t: StrategyType, s: Cluster, writes: nat)
    requires s.backup.Some?
    ensures SavePass(t, s, writes).after.backup == s.backup
  {
  }

  lemma PushKeepsBackup(t: StrategyType, s: Cluster, writes: nat)
    ensures PushPass(t, s, writes).after.backup == s.backup
  {
  }

  lemma ProcessKeepsBackup(s: Cluster, writes: nat, i: nat)
    requires s.backup.Some? && i < |s.oauths|
    ensures ProcessPass(s, writes, i).after.backup == s.backup
  {
    var p := Written(s, writes, s.(oauths := s.oauths[i := s.oauths[i].(finalizer := true)]));
    if s.oauths[i].strategy.Some? {
      var t := s.oauths[i].strategy.value;
      var q := SavePass(t, p.after, p.writes);
      SaveKeepsBackup(t, p.after, p.writes);
      PushKeepsBackup(t, q.after, q.writes);
    }
  }

  /** How many writes a restoring pass makes before it deletes the backup. */
  function WritesBefore(s: Cluster): nat {
    if s.hosted then 1
    else if OAUTH_WORK in s.works && !s.works[OAUTH_WORK].deleting then 2
    else 1
  }

  /** The same pass, cut short just before the deletion: the original is written in any case, confirmed
      exactly when the cluster is hosted or the condition was the original's before the pass, and really
      back exactly when the cluster is hosted or had it before the pass. */
  lemma CutShort(s: Cluster, writes: nat)
    requires s.backup.Some? && UnmanagePass(s, writes).after.backup != s.backup
    ensures H.LastLeaver(s) && UnmanagePass(s, writes).after.backup.None?
    ensures WritesBefore(s) < writes && UnmanagePass(s, WritesBefore(s)).outcome.Failed?
    ensures WrittenConfirmedBack(s, UnmanagePass(s, WritesBefore(s)).after)
  {
    if !H.LastLeaver(s) {
      PushKeepsBackup(if s.hosted then Hypershift else Backplane, s, writes);
    } else if s.hosted {
      HostedCutShort(s, writes);
    } else {
      UnhostedCutShort(s, writes);
    }
  }

  predicate WrittenConfirmedBack(s: Cluster, m: Cluster)
    requires s.backup.Some?
  {
    && OriginalWritten(s, m)
    && (OriginalConfirmed(s, m) <==> s.hosted || OriginalApplied(s))
    && (OriginalBack(s, m) <==> s.hosted || OnCluster(s, s.backup.value))
  }

  /** Whenever a restoring pass has got as far as the work, that holds the original and the role. */
  lemma WritesOriginal(s: Cluster, writes: nat)
    requires !s.hosted && H.LastLeaver(s) && s.backup.Some? && WritesBefore(s) <= writes
    ensures var t := UnmanagePass(s, writes).after;
            && (t.backup.Some? ==> ORIGINAL_WORK in t.works)
            && (ORIGINAL_WORK in t.works ==> HoldsOriginal(t.works[ORIGINAL_WORK].manifests, s.backup.value))
  {
    var p := B.DeleteWorkPass(s, writes, OAUTH_WORK);
    assert p.after.backup == s.backup && p.writes > 0 && !p.outcome.Failed?;
    var q := B.RestoreOriginalPass(p.after, p.writes);
    assert ORIGINAL_WORK in q.after.works && HoldsOriginal(q.after.works[ORIGINAL_WORK].manifests, s.backup.value);
    assert q.after.backup.None? || q.outcome.Failed?;
    if !q.outcome.Failed? {
      DeletedKeepsManifests(q.after, q.writes, ORIGINAL_WORK);
    }
  }

  lemma DeletedKeepsManifests(s: Cluster, writes: nat, name: string)
    requires name in s.works
    ensures var t := B.DeleteWorkPass(s, writes, name).after;
            && t.backup == s.backup
            && (name in t.works ==> t.works[name].manifests == s.works[name].manifests)
  {
  }

  lemma HostedCutShort(s: Cluster, writes: nat)
    requires s.hosted && s.backup.Some? && H.RestorePass(s, writes).after.backup != s.backup
    ensures H.RestorePass(s, writes).after.backup.None? && writes > 1
    ensures H.RestorePass(s, 1).outcome.Failed? && OriginalWritten(s, H.RestorePass(s, 1).after)
  {
  }

  lemma UnhostedCutShort(s: Cluster, writes: nat)
    requires !s.hosted && s.backup.Some? && B.RestorePass(s, writes).after.backup != s.backup
    ensures B.RestorePass(s, writes).after.backup.None? && writes > WritesBefore(s)
    ensures var p := B.RestorePass(s, WritesBefore(s));
            && p.outcome.Failed? && OriginalWritten(s, p.after) && p.after.document == s.document
            && (OriginalApplied(p.after) <==> OriginalApplied(s))
  {
    var k := WritesBefore(s);
    var p, q := B.DeleteWorkPass(s, writes, OAUTH_WORK), B.DeleteWorkPass(s, k, OAUTH_WORK);
    assert p.after == q.after && q.writes == 1 && !p.outcome.Failed? && !q.outcome.Failed?;
    OriginalCutShort(p.after, p.writes);
  }

  lemma OriginalCutShort(s: Cluster, writes: nat)
    requires !s.hosted && s.backup.Some? && B.RestoreOriginalPass(s, writes).after.backup != s.backup
    ensures B.RestoreOriginalPass(s, writes).after.backup.None? && writes > 1
    ensures var p := B.RestoreOriginalPass(s, 1);
            && p.outcome.Failed? && OriginalWritten(s, p.after) && p.after.document == s.document
            && (OriginalApplied(p.after) <==> OriginalApplied(s))
  {
  }

  /** The same event, cut short just before the deletion of the backup. */
  function Cut(s: Cluster, e: Event): Cluster {
    if e.Reconcile? then Step(s, e.(writes := WritesBefore(s))) else s
  }

  /** No event takes the backup away, except a pass for the sole, deleting ClusterOAuth. Cut short one
      write earlier that pass leaves the backup in place and the original written, confirmed or not and
      really back or not as it was before. */
  lemma BackupSurvives(s: Cluster, e: Event)
    requires s.backup.Some? && Step(s, e).backup != s.backup
    ensures Step(s, e).backup.None? && e.Reconcile? && H.LastLeaver(s) && s.oauths[0].name == e.name
    ensures WritesBefore(s) < e.writes && WrittenConfirmedBack(s, Cut(s, e))
  {
    if e.Reconcile? {
      var i := FindOAuth(s.oauths, e.name);
      if s.oauths[i].deleting {
        CutShort(s, e.writes);
      } else {
        ProcessKeepsBackup(s, e.writes, i);
      }
    }
  }

  // ----- over whole runs -----

  /** No Applied condition of other manifests can be taken for that of the original: there is none,
      and the agent will not set one. */
  predicate Fresh(s: Cluster)
    requires s.backup.Some?
  {
    !s.hosted && ORIGINAL_WORK in s.works ==>
      var work, original := s.works[ORIGINAL_WORK], B.OriginalManifests(s.backup.value);
      && work.applied in {None, Some(original)}
      && (work.manifests == original || work.deleting || !Applicable(work.manifests))
  }

  /** What a pass may do to the work that restores: write the original into it, or mark it. */
  predicate OriginalWorkShape(s: Cluster, t: Cluster)
    requires s.backup.Some?
  {
    var original := B.OriginalManifests(s.backup.value);
    ORIGINAL_WORK in t.works ==>
      var after := t.works[ORIGINAL_WORK];
      if ORIGINAL_WORK in s.works then
        var before := s.works[ORIGINAL_WORK];
        after.applied == before.applied && (before.deleting ==> after.deleting) &&
            after.manifests in {before.manifests, original}
      else after.applied.None? && after.manifests == original
  }

  lemma PushOriginalShape(t: StrategyType, s: Cluster, writes: nat)
    requires s.backup.Some?
    ensures PushPass(t, s, writes).after.hosted == s.hosted && OriginalWorkShape(s, PushPass(t, s, writes).after)
  {
  }

  lemma ProcessOriginalShape(s: Cluster, writes: nat, i: nat)
    requires s.backup.Some? && i < |s.oauths|
    ensures ProcessPass(s, writes, i).after.hosted == s.hosted && OriginalWorkShape(s, ProcessPass(s, writes, i).after)
  {
    var p := Written(s, writes, s.(oauths := s.oauths[i := s.oauths[i].(finalizer := true)]));
    if s.oauths[i].strategy.Some? {
      var t := s.oauths[i].strategy.value;
      assert SavePass(t, p.after, p.writes).after == p.after;
      PushOriginalShape(t, p.after, p.writes);
    }
  }

  lemma UnmanageOriginalShape(s: Cluster, writes: nat)
    requires s.backup.Some?
    ensures UnmanagePass(s, writes).after.hosted == s.hosted && OriginalWorkShape(s, UnmanagePass(s, writes).after)
  {
    if !H.LastLeaver(s) {
      PushOriginalShape(if s.hosted then Hypershift else Backplane, s, writes);
    } else if !s.hosted {
      RestoreOriginalShape(s, writes);
    }
  }

  lemma RestoreOriginalShape(s: Cluster, writes: nat)
    requires s.backup.Some?
    ensures B.RestorePass(s, writes).after.hosted == s.hosted && OriginalWorkShape(s, B.RestorePass(s, writes).after)
  {
    var p := B.DeleteWorkPass(s, writes, OAUTH_WORK);
    assert p.after.backup == s.backup && p.after.hosted == s.hosted;
    assert ORIGINAL_WORK in p.after.works <==> ORIGINAL_WORK in s.works;
    assert ORIGINAL_WORK in s.works ==> p.after.works[ORIGINAL_WORK] == s.works[ORIGINAL_WORK];
    if !p.outcome.Failed? {
      var q := B.RestoreOriginalPass(p.after, p.writes);
      assert q.after.hosted == s.hosted && OriginalWorkShape(p.after, q.after);
      if !q.outcome.Failed? {
        DeletedOriginalShape(s, q.after, q.writes);
      }
    }
  }

  lemma DeletedOriginalShape(s: Cluster, t: Cluster, writes: nat)
    requires s.backup.Some? && OriginalWorkShape(s, t)
    ensures OriginalWorkShape(s, B.DeleteWorkPass(t, writes, ORIGINAL_WORK).after)
    ensures B.DeleteWorkPass(t, writes, ORIGINAL_WORK).after.hosted == t.hosted
  {
  }

  lemma ReconcileOriginalShape(s: Cluster, e: Event)
    requires s.backup.Some? && e.Reconcile?
    ensures Step(s, e).hosted == s.hosted && OriginalWorkShape(s, Step(s, e))
  {
    var i := FindOAuth(s.oauths, e.name);
    if i != -1 {
      if s.oauths[i].deleting {
        UnmanageOriginalShape(s, e.writes);
      } else {
        ProcessOriginalShape(s, e.writes, i);
      }
    }
  }

  lemma FreshStays(s: Cluster, e: Event)
    requires s.backup.Some? && Fresh(s) && Step(s, e).backup == s.backup
    ensures Fresh(Step(s, e)) && Step(s, e).hosted == s.hosted
  {
    if e.Reconcile? {
      ReconcileOriginalShape(s, e);
    } else {
      OtherEventKeepsFresh(s, e);
    }
  }

  lemma OtherEventKeepsFresh(s: Cluster, e: Event)
    requires s.backup.Some? && Fresh(s) && !e.Reconcile?
    ensures Step(s, e).backup == s.backup && Fresh(Step(s, e)) && Step(s, e).hosted == s.hosted
  {
  }

  lemma PrefixOfPrefix<T>(es: seq<T>, n: nat, k: nat)
    requires k <= n <= |es|
    ensures es[..n][..k] == es[..k] && es[..|es|] == es
  {
  }

  /** The backup has kept its value in every state up to the `k`-th. */
  predicate KeptTo(s: Cluster, es: seq<Event>, k: nat)
    requires k <= |es|
  {
    forall j :: 0 <= j <= k ==> Run(s, es[..j]).backup == s.backup
  }

  lemma KeptInPrefix(s: Cluster, es: seq<Event>, n: nat, k: nat)
    requires k <= n <= |es|
    ensures KeptTo(s, es[..n], k) <==> KeptTo(s, es, k)
  {
    forall j | 0 <= j <= k ensures es[..n][..j] == es[..j] {
      PrefixOfPrefix(es, n, j);
    }
  }

  lemma {:induction false} FreshThroughout(s: Cluster, es: seq<Event>, k: nat)
    requires s.backup.Some? && Fresh(s) && k <= |es| && KeptTo(s, es, k)
    ensures Run(s, es[..k]).backup == s.backup && Fresh(Run(s, es[..k])) && Run(s, es[..k]).hosted == s.hosted
  {
    if k == 0 {
      assert es[..0] == [];
    } else {
      FreshThroughout(s, es, k - 1);
      RunPrefix(s, es, k - 1);
      assert Run(s, es[..k]).backup == s.backup;
      FreshStays(Run(s, es[..k - 1]), es[k - 1]);
    }
  }

  /** If the `k`-th event is the first to take the backup away, the agent has applied the original at
      some time. */
  predicate Confirmed(s: Cluster, es: seq<Event>, k: nat)
    requires s.backup.Some? && k < |es|
  {
    var t := Run(s, es[..k]);
    KeptTo(s, es, k) && t.backup == s.backup && Step(t, es[k]).backup != s.backup ==>
      es[k].Reconcile? && Step(t, es[k]).backup.None? && OriginalConfirmed(t, Cut(t, es[k]))
  }

  /** Over a whole run: the backup has its value in every state up to the end, or up to a pass that
      took it away and, cut short just before, had written the original; that was really back exactly
      when the cluster is hosted or had it before the pass. */
  lemma {:induction false} NeverLost(s: Cluster, es: seq<Event>) returns (k: nat)
    requires s.backup.Some?
    ensures k <= |es| && KeptTo(s, es, k) && Run(s, es[..k]).backup == s.backup
    ensures k < |es| ==>
              var t := Run(s, es[..k]);
              es[k].Reconcile? && Step(t, es[k]).backup.None? && WrittenConfirmedBack(t, Cut(t, es[k]))
  {
    k := KeptUntil(s, es);
    if k < |es| {
      BackupSurvives(Run(s, es[..k]), es[k]);
    }
  }

  lemma {:induction false} KeptUntil(s: Cluster, es: seq<Event>) returns (k: nat)
    ensures k <= |es| && KeptTo(s, es, k) && Run(s, es[..k]).backup == s.backup
    ensures k < |es| ==> Step(Run(s, es[..k]), es[k]).backup != s.backup
  {
    if es == [] {
      k := 0;
    } else {
      var n := |es| - 1;
      k := KeptUntil(s, es[..n]);
      KeptInPrefix(s, es, n, k);
      PrefixOfPrefix(es, n, k);
      if k == n && Run(s, es).backup == s.backup {
        OneMoreKept(s, es);
        k := n + 1;
      } else if k == n {
        RunPrefix(s, es, n);
      }
    }
  }

  lemma OneMoreKept(s: Cluster, es: seq<Event>)
    requires es != [] && KeptTo(s, es, |es| - 1) && Run(s, es).backup == s.backup
    ensures KeptTo(s, es, |es|) && es[..|es|] == es
  {
    PrefixOfPrefix(es, |es|, |es|);
    forall j | 0 <= j <= |es| ensures Run(s, es[..j]).backup == s.backup {
      if j == |es| {
        SameRun(s, es[..j], es);
      }
    }
  }

  lemma SameRun(s: Cluster, es: seq<Event>, same: seq<Event>)
    requires es == same
    ensures Run(s, es) == Run(s, same)
  {
  }

  /** From a fresh state no run gives the original up before the agent has applied it at some time. That
      another work may have been applied since is the business of `BackplaneRoundTrip.BackExactly`. */
  lemma FreshIsConfirmed(s: Cluster, es: seq<Event>, k: nat)
    requires s.backup.Some? && Fresh(s) && k < |es|
    ensures Confirmed(s, es, k)
  {
    var t := Run(s, es[..k]);
    if KeptTo(s, es, k) && Step(t, es[k]).backup != s.backup {
      FreshThroughout(s, es, k);
      BackupSurvives(t, es[k]);
      if !t.hosted {
        GivenUpWhenApplied(t, es[k]);
      }
    }
  }

  lemma GivenUpWhenApplied(s: Cluster, e: Event)
    requires !s.hosted && s.backup.Some? && e.Reconcile? && Step(s, e).backup.None? && H.LastLeaver(s)
    ensures ORIGINAL_WORK in s.works && s.works[ORIGINAL_WORK].applied.Some?
  {
    var p := B.DeleteWorkPass(s, e.writes, OAUTH_WORK);
    assert p.after.backup == s.backup;
    assert ORIGINAL_WORK in p.after.works <==> ORIGINAL_WORK in s.works;
    assert ORIGINAL_WORK in s.works ==> p.after.works[ORIGINAL_WORK] == s.works[ORIGINAL_WORK];
  }

  /** A Save makes a fresh start unless the work of an earlier cycle is still there. */
  lemma SaveIsFresh(t: StrategyType, s: Cluster, writes: nat)
    requires s.backup.None? && ORIGINAL_WORK !in s.works && SavePass(t, s, writes).after.backup.Some?
    ensures Fresh(SavePass(t, s, writes).after)
  {
  }

  // ----- the last one to leave restores, every earlier one pushes what is left -----

  /** The restore branch ran to its end. */
  predicate RestoreDone(s: Cluster, t: Cluster) {
    if s.hosted then
      && |s.deployments| == 1 && |t.deployments| == 1
      && var items, i := s.deployments[0].Items(), H.FirstNamed(s.deployments[0].Items(), H.OAUTH_NAME);
         if i == -1 || s.backup.None? then
           t.deployments == s.deployments && t.backup == s.backup
         else
           t.deployments[0].SecretRefs() == s.deployments[0].SecretRefs() &&
           t.deployments[0].Items() == H.RestoredItems(items, i, s.backup.value) && t.backup.None?
    else
      && t.backup.None?
      && (OAUTH_WORK in t.works ==> t.works[OAUTH_WORK].deleting)
      && (ORIGINAL_WORK in t.works ==> t.works[ORIGINAL_WORK].deleting)
  }

  /** The cluster gets exactly the providers of the ClusterOAuths in `t`. */
  ghost predicate PushedLive(s: Cluster, t: Cluster) {
    var data := SingleOAuth(t.ns, t.oauths);
    if s.hosted then
      |s.deployments| == 1 && |t.deployments| == 1 &&
          t.deployments[0].Items() == H.PushedItems(s.deployments[0].Items(), data)
    else
      OAUTH_WORK in t.works &&
      exists secrets :: t.works[OAUTH_WORK].manifests == secrets + [Document(data)]
  }

  lemma {:induction false} DroppedProviders(ns: string, oauths: seq<ClusterOAuth>, i: nat)
    requires i < |oauths| && oauths[i].deleting
    ensures LiveProviders(ns, Drop(oauths, i)) == LiveProviders(ns, oauths)
  {
    if i == 0 {
      assert Drop(oauths, 0) == oauths[1..];
    } else {
      assert Drop(oauths, i)[1..] == Drop(oauths[1..], i - 1);
      DroppedProviders(ns, oauths[1..], i - 1);
    }
  }

  lemma FinishedRestore(s: Cluster, writes: nat)
    requires H.LastLeaver(s) && !UnmanagePass(s, writes).outcome.Failed?
    ensures RestoreDone(s, UnmanagePass(s, writes).after)
  {
    if !s.hosted {
      var p := B.DeleteWorkPass(s, writes, OAUTH_WORK);
      assert OAUTH_WORK in p.after.works ==> p.after.works[OAUTH_WORK].deleting;
      var q := if s.backup.None? then p else B.RestoreOriginalPass(p.after, p.writes);
      assert OAUTH_WORK in q.after.works ==> q.after.works[OAUTH_WORK].deleting;
    }
  }

  lemma FinishedPush(s: Cluster, writes: nat)
    requires !H.LastLeaver(s) && !UnmanagePass(s, writes).outcome.Failed?
    ensures PushedLive(s, UnmanagePass(s, writes).after)
  {
    var t := UnmanagePass(s, writes).after;
    if !s.hosted {
      var m := B.SecretManifests(s.ns, s.secrets, [AggregatedRole], SecretSources(s.oauths));
      assert t.works[OAUTH_WORK].manifests == m.value + [Document(SingleOAuth(t.ns, t.oauths))];
    }
  }

  /** The pass that releases a ClusterOAuth. */
  lemma Release(s: Cluster, e: Event)
    requires e.Reconcile? && FindOAuth(s.oauths, e.name) != -1
    requires |Step(s, e).oauths| < |s.oauths|
    ensures s.oauths[FindOAuth(s.oauths, e.name)].deleting
    ensures Step(s, e).oauths == Drop(s.oauths, FindOAuth(s.oauths, e.name))
    ensures if |s.oauths| == 1 then RestoreDone(s, Step(s, e)) else PushedLive(s, Step(s, e))
  {
    var i := FindOAuth(s.oauths, e.name);
    if !s.oauths[i].deleting {
      ProcessKeepsCount(s, e.writes, i);
    }
    UnmanageKeepsOAuths(s, e.writes);
    var t := UnmanagePass(s, e.writes);
    if |s.oauths| == 1 {
      FinishedRestore(s, e.writes);
    } else {
      FinishedPush(s, e.writes);
      DroppedProviders(s.ns, s.oauths, i);
      assert Step(s, e) == t.after.(oauths := Drop(s.oauths, i));
      assert SingleOAuth(s.ns, s.oauths) == SingleOAuth(s.ns, Step(s, e).oauths);
    }
  }

  /** Deletion of a ClusterOAuth that has no finalizer, because no pass has processed it yet. */
  predicate BareDeletion(s: Cluster, e: Event) {
    e.DeleteOAuth? && var i := FindOAuth(s.oauths, e.name); i != -1 && !s.oauths[i].finalizer
  }

  /** A step that empties the namespace is a pass that finished the restore branch exactly when it is
      not a bare deletion. */
  lemma EmptiedExactly(s: Cluster, e: Event)
    requires s.oauths != [] && Step(s, e).oauths == []
    ensures e.Reconcile? && |s.oauths| == 1 && RestoreDone(s, Step(s, e)) <==> !BareDeletion(s, e)
  {
    if !BareDeletion(s, e) {
      OnlyPassesRelease(s, e);
      Release(s, e);
      assert |Drop(s.oauths, FindOAuth(s.oauths, e.name))| == |s.oauths| - 1;
    }
  }

  lemma OnlyPassesRelease(s: Cluster, e: Event)
    requires !BareDeletion(s, e) && |Step(s, e).oauths| < |s.oauths|
    ensures e.Reconcile? && FindOAuth(s.oauths, e.name) != -1
  {
  }

  /** No event of the run is a bare deletion. */
  predicate NoBareDeletion(s: Cluster, es: seq<Event>) {
    es == [] || (NoBareDeletion(s, es[..|es| - 1]) && !BareDeletion(Run(s, es[..|es| - 1]), es[|es| - 1]))
  }

  /** The last leaver restores: a run without bare deletions that empties the namespace has a pass that
      found one ClusterOAuth, finished the restore branch, and released it. */
  lemma {:induction false} LastLeaverRestores(s: Cluster, es: seq<Event>) returns (k: nat)
    requires s.oauths != [] && Run(s, es).oauths == [] && NoBareDeletion(s, es)
    ensures k < |es| && es[k].Reconcile? && |Run(s, es[..k]).oauths| == 1
    ensures RestoreDone(Run(s, es[..k]), Run(s, es[..k + 1])) && Run(s, es[..k + 1]).oauths == []
  {
    k := EmptiedAt(s, es);
    RunPrefix(s, es, k);
    NoneBare(s, es, k);
    EmptiedExactly(Run(s, es[..k]), es[k]);
  }

  /** The step that empties the namespace. */
  lemma {:induction false} EmptiedAt(s: Cluster, es: seq<Event>) returns (k: nat)
    requires s.oauths != [] && Run(s, es).oauths == []
    ensures k < |es| && Run(s, es[..k]).oauths != [] && Run(s, es[..k + 1]).oauths == []
  {
    assert es != [];
    var n := |es| - 1;
    PrefixOfPrefix(es, |es|, |es|);
    if Run(s, es[..n]).oauths == [] {
      k := EmptiedAt(s, es[..n]);
      PrefixOfPrefix(es, n, k);
      PrefixOfPrefix(es, n, k + 1);
    } else {
      k := n;
    }
  }

  lemma {:induction false} NoneBare(s: Cluster, es: seq<Event>, k: nat)
    requires NoBareDeletion(s, es) && k < |es|
    ensures !BareDeletion(Run(s, es[..k]), es[k])
  {
    var n := |es| - 1;
    LastNotBare(s, es);
    if k < n {
      NoneBare(s, es[..n], k);
      PrefixOfPrefix(es, n, k);
    }
  }

  lemma LastNotBare(s: Cluster, es: seq<Event>)
    requires NoBareDeletion(s, es) && es != []
    ensures NoBareDeletion(s, es[..|es| - 1]) && !BareDeletion(Run(s, es[..|es| - 1]), es[|es| - 1])
  {
  }
}
