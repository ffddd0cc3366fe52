/** A second ClusterOAuth comes and goes while the first one is leaving: a run in which the agent applies
    the original, then what the operator pushes again, and the leave trusts the older of the two. */
module NewcomerRun {
  import opened Kube
  import opened ClusterState
  import opened Aggregation
  import opened ClusterEvents
  import opened ClusterOAuthController
  import opened LosingRuns
  import Restoring

  function OriginalWork(s: Cluster): Work {
    Work(Originals(s.document), Some(Originals(s.document)), true, false)
  }

  function PushedWork(applied: bool): Work {
    Work(PUSHED, if applied then Some(PUSHED) else None, true, false)
  }

  function Marked(w: Work): Work {
    w.(deleting := true)
  }

  /** In the middle of the run, with the original saved. */
  function Amid(s: Cluster, oauths: seq<ClusterOAuth>, works: map<string, Work>, document: Raw): Cluster {
    s.(oauths := oauths, backup := Some(Backup(Some(s.document))), works := works, document := document)
  }

  function BothWorks(s: Cluster, applied: bool): map<string, Work> {
    map[ORIGINAL_WORK := OriginalWork(s), OAUTH_WORK := PushedWork(applied)]
  }

  predicate TwoPlain(s: Cluster, c: ClusterOAuth, d: ClusterOAuth) {
    && Unmanaged(s) && s.works == map[] && s.document.Decodable? && c.name != d.name
    && Plain(c) && c.strategy == Some(Backplane) && Plain(d) && d.strategy == Some(Backplane)
  }

  // ----- the first leave begins -----

  function Beginning(c: ClusterOAuth): seq<Event> {
    [Reconcile(c.name, 9, true), AgentApplies(ORIGINAL_WORK), FinishWork(OAUTH_WORK)]
  }

  /** The original is on the cluster, and the backup still there. */
  function Alone(s: Cluster, c: ClusterOAuth): Cluster {
    Amid(s, [Leaver(c)], map[ORIGINAL_WORK := OriginalWork(s)], Normalise(s.document))
  }

  lemma BeginStep(s: Cluster, c: ClusterOAuth, states: seq<Cluster>, k: nat)
    requires Unmanaged(s) && s.works == map[] && s.document.Decodable? && k < 3
    requires states == [Managing(s, c), Waiting(s, c), Restored(s, c), Alone(s, c)]
    ensures Step(states[k], Beginning(c)[k]) == states[k + 1]
  {
    match k
    case 0 => FirstLeave(s, c);
    case 1 => AppliesOriginal(s, c);
    case _ => assert Restored(s, c).works - {OAUTH_WORK} == map[ORIGINAL_WORK := OriginalWork(s)];
  }

  lemma LeaveBegins(s: Cluster, c: ClusterOAuth)
    requires Unmanaged(s) && s.works == map[] && s.document.Decodable?
    ensures Run(Managing(s, c), Beginning(c)) == Alone(s, c)
  {
    var states := [Managing(s, c), Waiting(s, c), Restored(s, c), Alone(s, c)];
    forall k | 0 <= k < 3 ensures Step(states[k], Beginning(c)[k]) == states[k + 1] {
      BeginStep(s, c, states, k);
    }
    RunAlong(Managing(s, c), Beginning(c), states);
  }

  // ----- the newcomer -----

  function Visit(d: ClusterOAuth): seq<Event> {
    [PutOAuth(d), Reconcile(d.name, 9, true), AgentApplies(OAUTH_WORK), DeleteOAuth(d.name)]
  }

  function Joined(s: Cluster, c: ClusterOAuth, d: ClusterOAuth): Cluster {
    Alone(s, c).(oauths := [Leaver(c), d])
  }

  function PushedAgain(s: Cluster, c: ClusterOAuth, d: ClusterOAuth): Cluster {
    Amid(s, [Leaver(c), Processed(d)], BothWorks(s, false), Normalise(s.document))
  }

  function AppliedAgain(s: Cluster, c: ClusterOAuth, d: ClusterOAuth): Cluster {
    Amid(s, [Leaver(c), Processed(d)], BothWorks(s, true), NOTHING)
  }

  function BothLeaving(s: Cluster, c: ClusterOAuth, d: ClusterOAuth): Cluster {
    Amid(s, [Leaver(c), Leaver(d)], BothWorks(s, true), NOTHING)
  }

  lemma FoundOfTwo(c: ClusterOAuth, d: ClusterOAuth)
    requires c.name != d.name
    ensures FindOAuth([c, d], c.name) == 0 && FindOAuth([c, d], d.name) == 1 && FindOAuth([c], d.name) == -1
    ensures Drop([c, d], 0) == [d]
  {
    assert [c, d][1..] == [d] && [d][1..] == [] && [c][1..] == [];
  }

  lemma PushesNothingOfTwo(s: Cluster, c: ClusterOAuth, d: ClusterOAuth, writes: nat)
    requires s.oauths == [c, d] && c.deleting && d.providers == [] && writes > 0
    ensures B.PushPass(s, writes) == Pass(s.(works := B.PutManifests(s.works, OAUTH_WORK, PUSHED)), writes - 1, Done)
  {
    PushesNothing(s.ns, d);
    assert [c, d][1..] == [d];
    assert LiveProviders(s.ns, [c, d]) == [] + LiveProviders(s.ns, [d]) == LiveProviders(s.ns, [d]);
    assert SecretSources([c, d]) == [] + SecretSources([d]) == [];
    assert SingleOAuth(s.ns, [c, d]) == NOTHING;
    assert B.SecretManifests(s.ns, s.secrets, [AggregatedRole], []) == Some([AggregatedRole]);
    assert [AggregatedRole] + [Document(NOTHING)] == PUSHED;
  }

  /** The newcomer's pass pushes, which makes the work that the leave had deleted anew. */
  lemma NewcomerPass(s: Cluster, c: ClusterOAuth, d: ClusterOAuth)
    requires TwoPlain(s, c, d)
    ensures Step(Joined(s, c, d), Reconcile(d.name, 9, true)) == PushedAgain(s, c, d)
  {
    var t := Joined(s, c, d);
    FoundOfTwo(Leaver(c), d);
    var p := t.(oauths := [Leaver(c), Processed(d)]);
    assert t.oauths[1 := Processed(d)] == [Leaver(c), Processed(d)];
    PushesNothingOfTwo(p, Leaver(c), Processed(d), 8);
    assert B.PutManifests(p.works, OAUTH_WORK, PUSHED) == BothWorks(s, false);
  }

  lemma AppliesAgain(s: Cluster, c: ClusterOAuth, d: ClusterOAuth)
    ensures Step(PushedAgain(s, c, d), AgentApplies(OAUTH_WORK)) == AppliedAgain(s, c, d)
  {
    var t := PushedAgain(s, c, d);
    assert LastDocument(PUSHED) == Some(NOTHING) && Applicable(PUSHED);
    assert AfterApplying(t, OAUTH_WORK).works == BothWorks(s, true);
  }

  lemma Joins(s: Cluster, c: ClusterOAuth, d: ClusterOAuth)
    requires TwoPlain(s, c, d)
    ensures Step(Alone(s, c), PutOAuth(d)) == Joined(s, c, d)
  {
    FoundOfTwo(Leaver(c), d);
    assert [Leaver(c)] + [d] == [Leaver(c), d];
  }

  lemma DeletesNewcomer(s: Cluster, c: ClusterOAuth, d: ClusterOAuth)
    requires TwoPlain(s, c, d)
    ensures Step(AppliedAgain(s, c, d), DeleteOAuth(d.name)) == BothLeaving(s, c, d)
  {
    FoundOfTwo(Leaver(c), Processed(d));
    assert [Leaver(c), Processed(d)][1 := Leaver(d)] == [Leaver(c), Leaver(d)];
  }

  lemma VisitStep(s: Cluster, c: ClusterOAuth, d: ClusterOAuth, states: seq<Cluster>, k: nat)
    requires TwoPlain(s, c, d) && k < 4
    requires states == [Alone(s, c), Joined(s, c, d), PushedAgain(s, c, d), AppliedAgain(s, c, d),
        BothLeaving(s, c, d)]
    ensures Step(states[k], Visit(d)[k]) == states[k + 1]
  {
    match k
    case 0 => Joins(s, c, d);
    case 1 => NewcomerPass(s, c, d);
    case 2 => AppliesAgain(s, c, d);
    case _ => DeletesNewcomer(s, c, d);
  }

  lemma Visits(s: Cluster, c: ClusterOAuth, d: ClusterOAuth)
    requires TwoPlain(s, c, d)
    ensures Run(Alone(s, c), Visit(d)) == BothLeaving(s, c, d)
  {
    var states := [Alone(s, c), Joined(s, c, d), PushedAgain(s, c, d), AppliedAgain(s, c, d), BothLeaving(s, c, d)];
    forall k | 0 <= k < 4 ensures Step(states[k], Visit(d)[k]) == states[k + 1] {
      VisitStep(s, c, d, states, k);
    }
    RunAlong(Alone(s, c), Visit(d), states);
  }

  // ----- both leave -----

  function Ending(c: ClusterOAuth, d: ClusterOAuth): seq<Event> {
    [Reconcile(c.name, 9, true), Reconcile(d.name, 9, true), FinishWork(OAUTH_WORK), FinishWork(ORIGINAL_WORK)]
  }

  function LastLeaving(s: Cluster, d: ClusterOAuth): Cluster {
    Amid(s, [Leaver(d)], BothWorks(s, true), NOTHING)
  }

  function GivenUp(s: Cluster): Cluster {
    s.(works := map[ORIGINAL_WORK := Marked(OriginalWork(s)), OAUTH_WORK := Marked(PushedWork(true))],
       document := NOTHING)
  }

  function StillHeld(s: Cluster): Cluster {
    s.(works := map[ORIGINAL_WORK := Marked(OriginalWork(s))], document := NOTHING)
  }

  /** Two are there, so the first to leave only pushes. */
  lemma FirstOfTwoLeaves(s: Cluster, c: ClusterOAuth, d: ClusterOAuth)
    requires TwoPlain(s, c, d)
    ensures Step(BothLeaving(s, c, d), Reconcile(c.name, 9, true)) == LastLeaving(s, d)
  {
    var t := BothLeaving(s, c, d);
    FoundOfTwo(Leaver(c), Leaver(d));
    NobodyLive(t, Leaver(c), Leaver(d));
    assert B.PutManifests(t.works, OAUTH_WORK, PUSHED) == t.works;
  }

  lemma NobodyLive(s: Cluster, c: ClusterOAuth, d: ClusterOAuth)
    requires s.oauths == [c, d] && c.deleting && d.deleting && !s.hosted
    ensures UnmanagePass(s, 9) == Pass(s.(works := B.PutManifests(s.works, OAUTH_WORK, PUSHED)), 8, Done)
  {
    assert [c, d][1..] == [d] && [d][1..] == [];
    assert LiveProviders(s.ns, []) == [] && SecretSources([]) == [];
    assert LiveProviders(s.ns, [d]) == [] && SecretSources([d]) == [];
    assert LiveProviders(s.ns, [c, d]) == [] && SecretSources([c, d]) == [];
    assert B.SecretManifests(s.ns, s.secrets, [AggregatedRole], []) == Some([AggregatedRole]);
    assert [AggregatedRole] + [Document(NOTHING)] == PUSHED;
  }

  lemma SecondOfTwoLeaves(s: Cluster, d: ClusterOAuth)
    requires Unmanaged(s)
    ensures Step(LastLeaving(s, d), Reconcile(d.name, 9, true)) == GivenUp(s)
  {
    var t, u := LastLeaving(s, d), GivenUp(s);
    assert u.works == t.works[ORIGINAL_WORK := Marked(OriginalWork(s))][OAUTH_WORK := Marked(PushedWork(true))];
    StalePass(t, d, u.works, s.document, OriginalWork(s));
  }

  lemma EndStep(s: Cluster, c: ClusterOAuth, d: ClusterOAuth, states: seq<Cluster>, k: nat)
    requires TwoPlain(s, c, d) && k < 4
    requires states == [BothLeaving(s, c, d), LastLeaving(s, d), GivenUp(s), StillHeld(s), s.(document := NOTHING)]
    ensures Step(states[k], Ending(c, d)[k]) == states[k + 1]
  {
    match k
    case 0 => FirstOfTwoLeaves(s, c, d);
    case 1 => SecondOfTwoLeaves(s, d);
    case 2 => assert GivenUp(s).works - {OAUTH_WORK} == StillHeld(s).works;
    case _ => assert StillHeld(s).works - {ORIGINAL_WORK} == map[];
  }

  lemma BothLeave(s: Cluster, c: ClusterOAuth, d: ClusterOAuth)
    requires TwoPlain(s, c, d)
    ensures Run(BothLeaving(s, c, d), Ending(c, d)) == s.(document := NOTHING)
  {
    var states := [BothLeaving(s, c, d), LastLeaving(s, d), GivenUp(s), StillHeld(s), s.(document := NOTHING)];
    forall k | 0 <= k < 4 ensures Step(states[k], Ending(c, d)[k]) == states[k + 1] {
      EndStep(s, c, d, states, k);
    }
    RunAlong(BothLeaving(s, c, d), Ending(c, d), states);
  }

  /** One cycle from an unmanaged cluster with nothing left of an earlier one. The state after it is
      fresh, so the agent has applied the original before the backup goes; but not last. At the end there
      is no ClusterOAuth, no backup and no work, and the operator's OAuth is on the cluster. */
  lemma LosesOriginal(s: Cluster, c: ClusterOAuth, d: ClusterOAuth)
    requires TwoPlain(s, c, d)
    ensures Run(s, Cycle(c)) == Managing(s, c) && Restoring.Fresh(Managing(s, c))
    ensures Run(s, Cycle(c) + (Beginning(c) + (Visit(d) + Ending(c, d)))) == s.(document := NOTHING)
  {
    var end := s.(document := NOTHING);
    CycleManages(s, c);
    LeaveBegins(s, c);
    Visits(s, c, d);
    BothLeave(s, c, d);
    RunsFollow(Alone(s, c), Visit(d), BothLeaving(s, c, d), Ending(c, d), end);
    RunsFollow(Managing(s, c), Beginning(c), Alone(s, c), Visit(d) + Ending(c, d), end);
    RunsFollow(s, Cycle(c), Managing(s, c), Beginning(c) + (Visit(d) + Ending(c, d)), end);
  }
}
