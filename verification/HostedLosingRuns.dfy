/** Two cycles of managing a hosted cluster: a backup that the first leaves behind makes the second take
    away what the user has put there in between. */
module HostedLosingRuns {
  import opened Kube
  import opened ClusterState
  import opened Aggregation
  import opened ClusterEvents
  import opened ClusterOAuthController
  import opened LosingRuns

  /** A hosted cluster without an OAuth item of its own. */
  predicate UnmanagedHosted(s: Cluster) {
    && s.hosted && s.managed && s.oauths == [] && s.backup.None? && |s.deployments| == 1
    && H.FirstNamed(s.deployments[0].Items(), H.OAUTH_NAME) == -1
  }

  function WithItems(s: Cluster, items: seq<Raw>): Cluster
    requires |s.deployments| == 1
  {
    s.(deployments := [Deployment(Some(Configuration(items, s.deployments[0].SecretRefs())))])
  }

  /** A first cycle whose only pass is cut short between Save and Push leaves a backup that says that
      there was no OAuth. */
  function Leftover(s: Cluster): Cluster {
    s.(backup := Some(Backup(None)))
  }

  function CutCycle(c: ClusterOAuth): seq<Event> {
    [PutOAuth(c), Reconcile(c.name, 2, true), DeleteOAuth(c.name), Reconcile(c.name, 9, true)]
  }

  lemma CopiesNothing(s: Cluster, c: ClusterOAuth, writes: nat)
    requires s.oauths == [c] && c.providers == [] && |s.deployments| == 1 && s.managed
    ensures H.PushPass(s, writes) ==
              Written(s, writes, WithItems(s, H.PushedItems(s.deployments[0].Items(), NOTHING)))
  {
    PushesNothing(s.ns, c);
    assert H.CopySecrets(s.ns, s.secrets, s.copied, [], writes) == H.Copy(s.copied, writes, true);
    assert [c][1..] == [];
    var refs := s.deployments[0].SecretRefs();
    assert refs + Repeated(PushedName(s.ns, c.name), 0) == refs;
    assert H.RefsAfter(s.ns, refs, c) == refs;
    assert H.PushedRefs(s.ns, refs, [c]) == H.PushedRefs(s.ns, refs, []);
  }

  /** A pass for the only ClusterOAuth of a hosted cluster: the finalizer, Save, Push. */
  lemma HostedPass(s: Cluster, c: ClusterOAuth, writes: nat)
    requires s.oauths == [c] && c.providers == [] && !c.deleting && c.strategy == Some(Hypershift)
    requires s.managed && |s.deployments| == 1 && writes >= 2
    ensures var t := s.(oauths := [Processed(c)]);
            var p := H.SavePass(t, writes - 1);
            Step(s, Reconcile(c.name, writes, true)) ==
            Written(p.after, p.writes, WithItems(p.after, H.PushedItems(s.deployments[0].Items(), NOTHING))).after
  {
    Found(c);
    var t := s.(oauths := [Processed(c)]);
    assert s.oauths[0 := Processed(c)] == [Processed(c)];
    var p := H.SavePass(t, writes - 1);
    CopiesNothing(p.after, Processed(c), p.writes);
  }

  lemma HostedLeave(s: Cluster, c: ClusterOAuth)
    requires s.hosted && s.managed && s.oauths == [Leaver(c)] && |s.deployments| == 1
    ensures Step(s, Reconcile(c.name, 9, true)) == H.RestorePass(s, 9).after.(oauths := [])
  {
    LeaverPass(s, c);
    assert !H.RestorePass(s, 9).outcome.Failed? && H.RestorePass(s, 9).writes >= 7;
  }

  lemma CutStep(s: Cluster, c: ClusterOAuth, states: seq<Cluster>, k: nat)
    requires UnmanagedHosted(s) && Plain(c) && c.strategy == Some(Hypershift) && k < 4
    requires states ==
      [s, Added(s, c), Leftover(s).(oauths := [Processed(c)]), Leftover(s).(oauths := [Leaver(c)]), Leftover(s)]
    ensures Step(states[k], CutCycle(c)[k]) == states[k + 1]
  {
    match k
    case 0 => Adds(s, c);
    case 1 => HostedPass(Added(s, c), c, 2);
    case 2 => Deletes(states[2], c);
    case _ => HostedLeave(states[3], c);
  }

  lemma CutCycleLeavesBackup(s: Cluster, c: ClusterOAuth)
    requires UnmanagedHosted(s) && Plain(c) && c.strategy == Some(Hypershift)
    ensures Run(s, CutCycle(c)) == Leftover(s)
  {
    var states :=
      [s, Added(s, c), Leftover(s).(oauths := [Processed(c)]), Leftover(s).(oauths := [Leaver(c)]), Leftover(s)];
    forall k | 0 <= k < 4 ensures Step(states[k], CutCycle(c)[k]) == states[k + 1] {
      CutStep(s, c, states, k);
    }
    RunAlong(s, CutCycle(c), states);
  }

  function FullCycle(c: ClusterOAuth): seq<Event> {
    [PutOAuth(c), Reconcile(c.name, 9, true), DeleteOAuth(c.name), Reconcile(c.name, 9, true)]
  }

  lemma AddedLast(items: seq<Raw>, d: Raw)
    requires H.FirstNamed(items, H.OAUTH_NAME) == -1 && Named(d, H.OAUTH_NAME)
    ensures H.FirstNamed(items + [d], H.OAUTH_NAME) == |items|
  {
    H.FirstNamedUnique(items + [d], H.OAUTH_NAME, |items|);
  }

  /** Restoring by an empty backup takes the item away. */
  lemma TakesAway(items: seq<Raw>, d: Raw)
    ensures (items + [d])[|items| := NOTHING] == items + [NOTHING]
    ensures H.RestoredItems(items + [d], |items|, Backup(None)) == items
  {
    assert (items + [d])[|items| := d] == items + [d];
  }

  /** The hosted cluster with the empty backup, and the OAuth `d` that its user has added. */
  predicate HasUsers(s: Cluster, items: seq<Raw>, d: Raw) {
    && s.hosted && s.managed && s.oauths == [] && s.backup == Some(Backup(None)) && |s.deployments| == 1
    && H.FirstNamed(items, H.OAUTH_NAME) == -1 && Named(d, H.OAUTH_NAME) && s == WithItems(s, items + [d])
  }

  lemma FullPass(s: Cluster, c: ClusterOAuth, items: seq<Raw>, d: Raw)
    requires HasUsers(s, items, d) && Plain(c) && c.strategy == Some(Hypershift)
    ensures Step(Added(s, c), Reconcile(c.name, 9, true)) == WithItems(s, items + [NOTHING]).(oauths := [Processed(c)])
  {
    AddedLast(items, d);
    TakesAway(items, d);
    HostedPass(Added(s, c), c, 9);
  }

  lemma FullLeave(s: Cluster, c: ClusterOAuth, items: seq<Raw>, d: Raw)
    requires HasUsers(s, items, d) && Plain(c)
    ensures Step(WithItems(s, items + [NOTHING]).(oauths := [Leaver(c)]), Reconcile(c.name, 9, true)) ==
              WithItems(s, items).(backup := None)
  {
    var t := WithItems(s, items + [NOTHING]).(oauths := [Leaver(c)]);
    AddedLast(items, NOTHING);
    TakesAway(items, NOTHING);
    HostedLeave(t, c);
    assert H.RestorePass(t, 9).after == WithItems(t, items).(backup := None);
  }

  lemma FullStep(s: Cluster, c: ClusterOAuth, items: seq<Raw>, d: Raw, states: seq<Cluster>, k: nat)
    requires HasUsers(s, items, d) && Plain(c) && c.strategy == Some(Hypershift) && k < 4
    requires states == [s, Added(s, c), WithItems(s, items + [NOTHING]).(oauths := [Processed(c)]),
                        WithItems(s, items + [NOTHING]).(oauths := [Leaver(c)]), WithItems(s, items).(backup := None)]
    ensures Step(states[k], FullCycle(c)[k]) == states[k + 1]
  {
    match k
    case 0 => Adds(s, c);
    case 1 => FullPass(s, c, items, d);
    case 2 => Deletes(states[2], c);
    case _ => FullLeave(s, c, items, d);
  }

  lemma FullCycleTakesAway(s: Cluster, c: ClusterOAuth, items: seq<Raw>, d: Raw)
    requires HasUsers(s, items, d) && Plain(c) && c.strategy == Some(Hypershift)
    ensures Run(s, FullCycle(c)) == WithItems(s, items).(backup := None)
  {
    var states := [s, Added(s, c), WithItems(s, items + [NOTHING]).(oauths := [Processed(c)]),
                   WithItems(s, items + [NOTHING]).(oauths := [Leaver(c)]), WithItems(s, items).(backup := None)];
    forall k | 0 <= k < 4 ensures Step(states[k], FullCycle(c)[k]) == states[k + 1] {
      FullStep(s, c, items, d, states, k);
    }
    RunAlong(s, FullCycle(c), states);
  }

  lemma EditsHosted(s: Cluster, d: Raw)
    requires UnmanagedHosted(s) && Named(d, H.OAUTH_NAME)
    ensures Run(Leftover(s), [UserEdits(d)]) == WithItems(Leftover(s), s.deployments[0].Items() + [d])
  {
    var t := Leftover(s);
    assert H.PushedItems(t.deployments[0].Items(), d) == s.deployments[0].Items() + [d];
    assert Edits(t, UserEdits(d)) && Edited(t, d) == WithItems(t, s.deployments[0].Items() + [d]);
    RunOne(t, UserEdits(d));
  }

  /** The backup that a cut-short first cycle leaves behind makes the second cycle take away the OAuth
      that the user has given the cluster in between. */
  lemma LosesUsersOAuth(s: Cluster, c: ClusterOAuth, d: Raw)
    requires UnmanagedHosted(s) && Plain(c) && c.strategy == Some(Hypershift) && Named(d, H.OAUTH_NAME)
    ensures var t := Run(s, CutCycle(c) + [UserEdits(d)]);
            |t.deployments| == 1 && t.deployments[0].Items() == s.deployments[0].Items() + [d]
    ensures var t := Run(s, CutCycle(c) + [UserEdits(d)] + FullCycle(c));
            && t.oauths == [] && t.backup.None?
            && |t.deployments| == 1 && t.deployments[0].Items() == s.deployments[0].Items()
  {
    var items := s.deployments[0].Items();
    var edited := WithItems(Leftover(s), items + [d]);
    CutCycleLeavesBackup(s, c);
    EditsHosted(s, d);
    RunsFollow(s, CutCycle(c), Leftover(s), [UserEdits(d)], edited);
    FullCycleTakesAway(edited, c, items, d);
    RunsFollow(s, CutCycle(c) + [UserEdits(d)], edited, FullCycle(c), WithItems(edited, items).(backup := None));
  }
}
