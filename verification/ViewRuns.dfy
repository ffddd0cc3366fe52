/** Two runs in which the backup is not the OAuth that the cluster had: the view was filled too late, or
    it is one that an earlier cycle has left behind. */
module ViewRuns {
  import opened Kube
  import opened ClusterState
  import opened ClusterEvents
  import opened ClusterOAuthController
  import opened LosingRuns

  // ----- a view that is filled too late -----

  /** A cycle in which the agent is faster than the view. */
  function LateCycle(c: ClusterOAuth): seq<Event> {
    [PutOAuth(c), Reconcile(c.name, 9, true), AgentApplies(OAUTH_WORK), FillView, Reconcile(c.name, 9, true),
        DeleteOAuth(c.name)]
  }

  function AppliedEarly(s: Cluster, c: ClusterOAuth): Cluster {
    s.(oauths := [Processed(c)], view := Some(View(None)),
       works := s.works[OAUTH_WORK := Work(PUSHED, Some(PUSHED), true, false)], document := NOTHING)
  }

  function FilledLate(s: Cluster, c: ClusterOAuth): Cluster {
    AppliedEarly(s, c).(view := Some(View(Some(NOTHING))))
  }

  /** The operator's OAuth is what the cluster seems to have had. */
  function Changed(s: Cluster): Cluster {
    s.(document := NOTHING)
  }

  lemma AppliesEarly(s: Cluster, c: ClusterOAuth)
    ensures Step(PushedOnce(s, c), AgentApplies(OAUTH_WORK)) == AppliedEarly(s, c)
  {
    assert LastDocument(PUSHED) == Some(NOTHING) && Applicable(PUSHED);
    assert AfterApplying(PushedOnce(s, c), OAUTH_WORK).works == AppliedEarly(s, c).works;
  }

  lemma SavesPushed(s: Cluster, c: ClusterOAuth)
    requires Unmanaged(s) && Plain(c) && c.strategy == Some(Backplane)
    ensures Step(FilledLate(s, c), Reconcile(c.name, 9, true)) == AppliedPushed(Changed(s), c)
  {
    var t := FilledLate(s, c);
    PlainPass(t, Processed(c));
    var u := t.(backup := Some(Backup(Some(NOTHING))), view := None);
    assert t.(oauths := [Processed(c)]) == t;
    assert B.SavePass(t, 8) == Pass(u, 5, Done);
    assert B.PutManifests(u.works, OAUTH_WORK, PUSHED) == u.works;
    assert u == AppliedPushed(Changed(s), c);
  }

  lemma LateStep(s: Cluster, c: ClusterOAuth, states: seq<Cluster>, k: nat)
    requires Unmanaged(s) && Plain(c) && c.strategy == Some(Backplane) && k < 6
    requires states == [s, Added(s, c), PushedOnce(s, c), AppliedEarly(s, c), FilledLate(s, c),
        AppliedPushed(Changed(s), c), Managing(Changed(s), c)]
    ensures Step(states[k], LateCycle(c)[k]) == states[k + 1]
  {
    match k
    case 0 => Adds(s, c);
    case 1 => FirstPass(s, c);
    case 2 => AppliesEarly(s, c);
    case 3 =>
    case 4 => SavesPushed(s, c);
    case _ => Deletes(states[5], c);
  }

  lemma SavesTooLate(s: Cluster, c: ClusterOAuth)
    requires Unmanaged(s) && Plain(c) && c.strategy == Some(Backplane)
    ensures Run(s, LateCycle(c)) == Managing(Changed(s), c)
    ensures Run(s, LateCycle(c)).backup == Some(Backup(Some(NOTHING)))
  {
    var states := [s, Added(s, c), PushedOnce(s, c), AppliedEarly(s, c), FilledLate(s, c),
        AppliedPushed(Changed(s), c), Managing(Changed(s), c)];
    forall k | 0 <= k < 6 ensures Step(states[k], LateCycle(c)[k]) == states[k + 1] {
      LateStep(s, c, states, k);
    }
    RunAlong(s, LateCycle(c), states);
  }

  lemma FinishesHeld(s: Cluster)
    requires ORIGINAL_WORK !in s.works
    ensures Run(Held(s), [FinishWork(ORIGINAL_WORK)]) == s.(document := Normalise(s.document))
  {
    RunOne(Held(s), FinishWork(ORIGINAL_WORK));
    assert Held(s).works - {ORIGINAL_WORK} == s.works;
  }

  /** A leave and the end of the work that restored. */
  function WholeLeave(c: ClusterOAuth): seq<Event> {
    Leave(c) + [FinishWork(ORIGINAL_WORK)]
  }

  lemma WholeLeaveRestores(s: Cluster, c: ClusterOAuth)
    requires Idle(s) && ORIGINAL_WORK !in s.works && s.document.Decodable?
    ensures Run(Managing(s, c), WholeLeave(c)) == s.(document := Normalise(s.document))
  {
    LeaveRestores(s, c);
    FinishesHeld(s);
    RunsFollow(Managing(s, c), Leave(c), Held(s), [FinishWork(ORIGINAL_WORK)], s.(document := Normalise(s.document)));
  }

  /** The operator saves its own OAuth as the original, and the leave restores that: in the end there is
      no ClusterOAuth, no backup and no further work, and the operator's OAuth is on the cluster. */
  lemma LosesOriginal(s: Cluster, c: ClusterOAuth)
    requires Unmanaged(s) && ORIGINAL_WORK !in s.works && Plain(c) && c.strategy == Some(Backplane)
    ensures Run(s, LateCycle(c) + WholeLeave(c)) == s.(document := NOTHING)
  {
    SavesTooLate(s, c);
    WholeLeaveRestores(Changed(s), c);
    RunsFollow(s, LateCycle(c), Managing(Changed(s), c), WholeLeave(c), s.(document := NOTHING));
  }

  // ----- a view that is left behind -----

  /** A cycle in which the pass that saves is cut short before it deletes the view. */
  function CutCycle(c: ClusterOAuth): seq<Event> {
    [PutOAuth(c), Reconcile(c.name, 9, true), FillView, Reconcile(c.name, 3, true), Reconcile(c.name, 9, true),
        AgentApplies(OAUTH_WORK), DeleteOAuth(c.name)]
  }

  function Viewing(s: Cluster): Cluster {
    s.(view := Some(View(Some(s.document))))
  }

  function SavedCut(s: Cluster, c: ClusterOAuth): Cluster {
    Filled(s, c).(backup := Some(Backup(Some(s.document))))
  }

  lemma CutPass(s: Cluster, c: ClusterOAuth)
    requires Unmanaged(s) && c.providers == [] && !c.deleting && c.strategy == Some(Backplane)
    ensures Step(Filled(s, c), Reconcile(c.name, 3, true)) == SavedCut(s, c)
  {
    var t := Filled(s, c);
    Found(Processed(c));
    assert t.oauths[0 := Processed(c)] == t.oauths;
    assert B.SavePass(t, 2) == Pass(SavedCut(s, c), 0, Failed);
  }

  lemma NextPass(s: Cluster, c: ClusterOAuth)
    requires Unmanaged(s) && c.providers == [] && !c.deleting && c.strategy == Some(Backplane)
    ensures Step(SavedCut(s, c), Reconcile(c.name, 9, true)) == SavedCut(s, c)
  {
    var t := SavedCut(s, c);
    PlainPass(t, Processed(c));
    assert t.(oauths := [Processed(c)]) == t && B.SavePass(t, 8) == Pass(t, 8, Done);
    assert B.PutManifests(t.works, OAUTH_WORK, PUSHED) == t.works;
  }

  lemma AppliesCut(s: Cluster, c: ClusterOAuth)
    ensures Step(SavedCut(s, c), AgentApplies(OAUTH_WORK)) == AppliedPushed(Viewing(s), c)
  {
    var t := SavedCut(s, c);
    assert LastDocument(PUSHED) == Some(NOTHING) && Applicable(PUSHED);
    assert AfterApplying(t, OAUTH_WORK).works == AppliedPushed(Viewing(s), c).works;
  }

  lemma CutStep(s: Cluster, c: ClusterOAuth, states: seq<Cluster>, k: nat)
    requires Unmanaged(s) && Plain(c) && c.strategy == Some(Backplane) && k < 7
    requires states == [s, Added(s, c), PushedOnce(s, c), Filled(s, c), SavedCut(s, c), SavedCut(s, c),
        AppliedPushed(Viewing(s), c), Managing(Viewing(s), c)]
    ensures Step(states[k], CutCycle(c)[k]) == states[k + 1]
  {
    match k
    case 0 => Adds(s, c);
    case 1 => FirstPass(s, c);
    case 2 =>
    case 3 => CutPass(s, c);
    case 4 => NextPass(s, c);
    case 5 => AppliesCut(s, c);
    case _ => Deletes(states[6], c);
  }

  lemma LeavesViewBehind(s: Cluster, c: ClusterOAuth)
    requires Unmanaged(s) && Plain(c) && c.strategy == Some(Backplane)
    ensures Run(s, CutCycle(c)) == Managing(Viewing(s), c)
  {
    var states := [s, Added(s, c), PushedOnce(s, c), Filled(s, c), SavedCut(s, c), SavedCut(s, c),
        AppliedPushed(Viewing(s), c), Managing(Viewing(s), c)];
    forall k | 0 <= k < 7 ensures Step(states[k], CutCycle(c)[k]) == states[k + 1] {
      CutStep(s, c, states, k);
    }
    RunAlong(s, CutCycle(c), states);
  }

  /** A cycle that needs no view, since one is there. */
  function QuickCycle(c: ClusterOAuth): seq<Event> {
    [PutOAuth(c), Reconcile(c.name, 9, true), AgentApplies(OAUTH_WORK), DeleteOAuth(c.name)]
  }

  /** After its user has changed the OAuth of the cluster to `d`. */
  function Replaced(s: Cluster, d: Raw): Cluster {
    Viewing(s).(document := d)
  }

  function SavedOld(s: Cluster, c: ClusterOAuth, d: Raw): Cluster {
    Saved(s, c).(document := d)
  }

  lemma SavesOld(s: Cluster, c: ClusterOAuth, d: Raw)
    requires Unmanaged(s) && Plain(c) && c.strategy == Some(Backplane)
    ensures Step(Added(Replaced(s, d), c), Reconcile(c.name, 9, true)) == SavedOld(s, c, d)
  {
    var t := Added(Replaced(s, d), c);
    PlainPass(t, c);
    var q := t.(oauths := [Processed(c)]);
    assert B.SavePass(q, 8) == Pass(q.(backup := Some(Backup(Some(s.document))), view := None), 5, Done);
  }

  lemma AppliesOld(s: Cluster, c: ClusterOAuth, d: Raw)
    ensures Step(SavedOld(s, c, d), AgentApplies(OAUTH_WORK)) == AppliedPushed(s, c)
  {
    var t := SavedOld(s, c, d);
    assert LastDocument(PUSHED) == Some(NOTHING) && Applicable(PUSHED);
    assert AfterApplying(t, OAUTH_WORK).works == AppliedPushed(s, c).works;
  }

  lemma QuickStep(s: Cluster, c: ClusterOAuth, d: Raw, states: seq<Cluster>, k: nat)
    requires Unmanaged(s) && Plain(c) && c.strategy == Some(Backplane) && k < 4
    requires states == [Replaced(s, d), Added(Replaced(s, d), c), SavedOld(s, c, d), AppliedPushed(s, c),
        Managing(s, c)]
    ensures Step(states[k], QuickCycle(c)[k]) == states[k + 1]
  {
    match k
    case 0 => Adds(Replaced(s, d), c);
    case 1 => SavesOld(s, c, d);
    case 2 => AppliesOld(s, c, d);
    case _ => Deletes(states[3], c);
  }

  lemma QuickManages(s: Cluster, c: ClusterOAuth, d: Raw)
    requires Unmanaged(s) && Plain(c) && c.strategy == Some(Backplane)
    ensures Run(Replaced(s, d), QuickCycle(c)) == Managing(s, c)
  {
    var states := [Replaced(s, d), Added(Replaced(s, d), c), SavedOld(s, c, d), AppliedPushed(s, c), Managing(s, c)];
    forall k | 0 <= k < 4 ensures Step(states[k], QuickCycle(c)[k]) == states[k + 1] {
      QuickStep(s, c, d, states, k);
    }
    RunAlong(Replaced(s, d), QuickCycle(c), states);
  }

  function CutCycleAndEdit(c: ClusterOAuth, d: Raw): seq<Event> {
    CutCycle(c) + WholeLeave(c) + [UserEdits(d)]
  }

  lemma LeavesThenEdits(s: Cluster, c: ClusterOAuth, d: Raw)
    requires Unmanaged(s) && ORIGINAL_WORK !in s.works && s.document.Decodable? && Named(d, "cluster")
    requires Plain(c) && c.strategy == Some(Backplane)
    ensures Run(s, CutCycleAndEdit(c, d)) == Replaced(s, d)
  {
    LeavesViewBehind(s, c);
    WholeLeaveRestores(Viewing(s), c);
    var t := Viewing(s).(document := Normalise(s.document));
    RunsFollow(s, CutCycle(c), Managing(Viewing(s), c), WholeLeave(c), t);
    RunOne(t, UserEdits(d));
    RunsFollow(s, CutCycle(c) + WholeLeave(c), t, [UserEdits(d)], Replaced(s, d));
  }

  /** The second cycle saves what the view of the first one showed: in the end the cluster has the OAuth
      that its user had replaced by `d`, and `d` is nowhere. */
  lemma RestoresReplaced(s: Cluster, c: ClusterOAuth, d: Raw)
    requires Unmanaged(s) && ORIGINAL_WORK !in s.works && s.document.Decodable? && Named(d, "cluster")
    requires Plain(c) && c.strategy == Some(Backplane)
    ensures Run(s, CutCycleAndEdit(c, d) + (QuickCycle(c) + WholeLeave(c))) == s.(document := Normalise(s.document))
  {
    var end := s.(document := Normalise(s.document));
    LeavesThenEdits(s, c, d);
    QuickManages(s, c, d);
    WholeLeaveRestores(s, c);
    RunsFollow(Replaced(s, d), QuickCycle(c), Managing(s, c), WholeLeave(c), end);
    RunsFollow(s, CutCycleAndEdit(c, d), Replaced(s, d), QuickCycle(c) + WholeLeave(c), end);
  }
}
