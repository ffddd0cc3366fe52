/** Two cycles of managing a cluster, with a change by its user in between: runs from an unmanaged
    cluster at the end of which what the user has put there is nowhere. */
module LosingRuns {
  import opened Kube
  import opened ClusterState
  import opened Aggregation
  import opened ClusterEvents
  import opened ClusterOAuthController

  const NOTHING := Decodable("OAuth", "cluster", Providers([]), 0)

  /** A ClusterOAuth without providers, before and after its first pass and in deletion. */
  predicate Plain(c: ClusterOAuth) {
    c.providers == [] && !c.finalizer && !c.deleting
  }

  function Processed(c: ClusterOAuth): ClusterOAuth {
    c.(finalizer := true)
  }

  function Leaver(c: ClusterOAuth): ClusterOAuth {
    c.(finalizer := true, deleting := true)
  }

  lemma PushesNothing(ns: string, c: ClusterOAuth)
    requires c.providers == []
    ensures SingleOAuth(ns, [c]) == NOTHING && SecretSources([c]) == []
  {
    assert [c][1..] == [];
    assert LiveProviders(ns, [c][1..]) == [] && SecretSources([c][1..]) == [];
    assert PrefixedAll(ns, c.providers) == [] && Repeated(c.name, |c.providers|) == [];
    assert LiveProviders(ns, [c]) == [] && SecretSources([c]) == [];
  }

  lemma Found(c: ClusterOAuth)
    ensures FindOAuth([], c.name) == -1 && FindOAuth([c], c.name) == 0 && Drop([c], 0) == []
  {
  }

  // ----- clusters reached through ManifestWorks -----

  const PUSHED := [AggregatedRole, Document(NOTHING)]

  predicate Idle(s: Cluster) {
    !s.hosted && s.managed && s.oauths == [] && s.backup.None? && OAUTH_WORK !in s.works
  }

  predicate Unmanaged(s: Cluster) {
    Idle(s) && s.view.None?
  }

  function Cycle(c: ClusterOAuth): seq<Event> {
    [PutOAuth(c), Reconcile(c.name, 9, true), FillView, Reconcile(c.name, 9, true), AgentApplies(OAUTH_WORK),
        DeleteOAuth(c.name)]
  }

  function Added(s: Cluster, c: ClusterOAuth): Cluster {
    s.(oauths := [c])
  }

  function PushedOnce(s: Cluster, c: ClusterOAuth): Cluster {
    s.(oauths := [Processed(c)], view := Some(View(None)),
        works := s.works[OAUTH_WORK := Work(PUSHED, None, true, false)])
  }

  function Saved(s: Cluster, c: ClusterOAuth): Cluster {
    s.(oauths := [Processed(c)], backup := Some(Backup(Some(s.document))),
       works := s.works[OAUTH_WORK := Work(PUSHED, None, true, false)])
  }

  /** The cluster at the end of a cycle, with its only ClusterOAuth about to leave. */
  function Managing(s: Cluster, c: ClusterOAuth): Cluster {
    s.(oauths := [Leaver(c)], backup := Some(Backup(Some(s.document))),
       works := s.works[OAUTH_WORK := Work(PUSHED, Some(PUSHED), true, false)], document := NOTHING)
  }

  lemma PushesPlain(s: Cluster, c: ClusterOAuth, writes: nat)
    requires s.oauths == [c] && c.providers == [] && writes > 0
    ensures B.PushPass(s, writes) == Pass(s.(works := B.PutManifests(s.works, OAUTH_WORK, PUSHED)), writes - 1, Done)
  {
    PushesNothing(s.ns, c);
    assert B.SecretManifests(s.ns, s.secrets, [AggregatedRole], []) == Some([AggregatedRole]);
    assert [AggregatedRole] + [Document(NOTHING)] == PUSHED;
  }

  /** A pass for the only ClusterOAuth: the finalizer, Save, Push. */
  lemma PlainPass(s: Cluster, c: ClusterOAuth)
    requires s.oauths == [c] && c.providers == [] && !c.deleting && c.strategy == Some(Backplane)
    ensures var t := s.(oauths := [Processed(c)]);
            var p := B.SavePass(t, 8);
            !p.outcome.Failed? && p.writes > 0 && p.after.oauths == t.oauths ==>
              Step(s, Reconcile(c.name, 9, true)) ==
                  p.after.(works := B.PutManifests(p.after.works, OAUTH_WORK, PUSHED))
  {
    Found(c);
    var t := s.(oauths := [Processed(c)]);
    assert s.oauths[0 := Processed(c)] == [Processed(c)];
    var p := B.SavePass(t, 8);
    if !p.outcome.Failed? && p.writes > 0 && p.after.oauths == t.oauths {
      PushesPlain(p.after, Processed(c), p.writes);
    }
  }

  lemma FirstPass(s: Cluster, c: ClusterOAuth)
    requires Unmanaged(s) && Plain(c) && c.strategy == Some(Backplane)
    ensures Step(Added(s, c), Reconcile(c.name, 9, true)) == PushedOnce(s, c)
  {
    PlainPass(Added(s, c), c);
    var t := Added(s, c).(oauths := [Processed(c)]);
    assert B.SavePass(t, 8) == Pass(t.(view := Some(View(None))), 7, RequeueAfter);
  }

  function Filled(s: Cluster, c: ClusterOAuth): Cluster {
    PushedOnce(s, c).(view := Some(View(Some(s.document))))
  }

  lemma SecondPass(s: Cluster, c: ClusterOAuth)
    requires Unmanaged(s) && Plain(c) && c.strategy == Some(Backplane)
    ensures Step(Filled(s, c), Reconcile(c.name, 9, true)) == Saved(s, c)
  {
    var t := Filled(s, c);
    PlainPass(t, Processed(c));
    var u := t.(backup := Some(Backup(Some(s.document))), view := None);
    assert t.(oauths := [Processed(c)]) == t;
    assert B.SavePass(t, 8) == Pass(u, 5, Done);
    assert B.PutManifests(u.works, OAUTH_WORK, PUSHED) == u.works;
    assert u == Saved(s, c);
  }

  function AppliedPushed(s: Cluster, c: ClusterOAuth): Cluster {
    Managing(s, c).(oauths := [Processed(c)])
  }

  lemma AppliesPushed(s: Cluster, c: ClusterOAuth)
    ensures Step(Saved(s, c), AgentApplies(OAUTH_WORK)) == AppliedPushed(s, c)
  {
    var t := Saved(s, c);
    assert LastDocument(PUSHED) == Some(NOTHING) && Applicable(PUSHED);
    assert AfterApplying(t, OAUTH_WORK).works == s.works[OAUTH_WORK := Work(PUSHED, Some(PUSHED), true, false)];
  }

  lemma Deletes(s: Cluster, c: ClusterOAuth)
    requires s.oauths == [Processed(c)]
    ensures Step(s, DeleteOAuth(c.name)) == s.(oauths := [Leaver(c)])
  {
    Found(Processed(c));
    assert [Processed(c)][0 := Leaver(c)] == [Leaver(c)];
  }

  lemma Adds(s: Cluster, c: ClusterOAuth)
    requires s.oauths == [] && Plain(c)
    ensures Step(s, PutOAuth(c)) == Added(s, c)
  {
    Found(c);
    assert [] + [c] == [c];
  }

  lemma CycleStep(s: Cluster, c: ClusterOAuth, states: seq<Cluster>, k: nat)
    requires Unmanaged(s) && Plain(c) && c.strategy == Some(Backplane) && k < 6
    requires states == [s, Added(s, c), PushedOnce(s, c), Filled(s, c), Saved(s, c), AppliedPushed(s, c),
        Managing(s, c)]
    ensures Step(states[k], Cycle(c)[k]) == states[k + 1]
  {
    match k
    case 0 => Adds(s, c);
    case 1 => FirstPass(s, c);
    case 2 =>
    case 3 => SecondPass(s, c);
    case 4 => AppliesPushed(s, c);
    case _ => Deletes(states[5], c);
  }

  lemma CycleManages(s: Cluster, c: ClusterOAuth)
    requires Unmanaged(s) && Plain(c) && c.strategy == Some(Backplane)
    ensures Run(s, Cycle(c)) == Managing(s, c)
  {
    var states := [s, Added(s, c), PushedOnce(s, c), Filled(s, c), Saved(s, c), AppliedPushed(s, c), Managing(s, c)];
    forall k | 0 <= k < 6 ensures Step(states[k], Cycle(c)[k]) == states[k + 1] {
      CycleStep(s, c, states, k);
    }
    RunAlong(s, Cycle(c), states);
  }

  // ----- leaving, the first and the second time -----

  function Originals(document: Raw): seq<Manifest> {
    B.OriginalManifests(Backup(Some(document)))
  }

  lemma LeaverPass(s: Cluster, c: ClusterOAuth)
    requires s.oauths == [Leaver(c)] && s.managed
    ensures var p := UnmanagePass(s, 9);
            Step(s, Reconcile(c.name, 9, true)) ==
            if p.outcome.Failed? || p.writes == 0 then p.after else p.after.(oauths := [])
  {
    Found(Leaver(c));
  }

  /** The pass has written the original, and waits for the agent. */
  function Waiting(s: Cluster, c: ClusterOAuth): Cluster {
    Managing(s, c).(works := s.works[OAUTH_WORK := Work(PUSHED, Some(PUSHED), true, true)]
                                    [ORIGINAL_WORK := Work(Originals(s.document), None, true, false)])
  }

  function Restored(s: Cluster, c: ClusterOAuth): Cluster {
    Managing(s, c).(works := s.works[OAUTH_WORK := Work(PUSHED, Some(PUSHED), true, true)]
                                    [ORIGINAL_WORK := Work(Originals(s.document), Some(Originals(s.document)), true,
                                        false)],
                    document := Normalise(s.document))
  }

  function Released(s: Cluster): Cluster {
    s.(oauths := [], backup := None,
       works := s.works[OAUTH_WORK := Work(PUSHED, Some(PUSHED), true, true)]
                       [ORIGINAL_WORK := Work(Originals(s.document), Some(Originals(s.document)), true, true)],
       document := Normalise(s.document))
  }

  /** The cluster is as it was, but the agent still holds the work that restored it. */
  function Held(s: Cluster): Cluster {
    s.(works := s.works[ORIGINAL_WORK := Work(Originals(s.document), Some(Originals(s.document)), true, true)],
       document := Normalise(s.document))
  }

  function Leave(c: ClusterOAuth): seq<Event> {
    [Reconcile(c.name, 9, true), AgentApplies(ORIGINAL_WORK), Reconcile(c.name, 9, true), FinishWork(OAUTH_WORK)]
  }

  lemma FirstLeave(s: Cluster, c: ClusterOAuth)
    requires Idle(s) && ORIGINAL_WORK !in s.works
    ensures Step(Managing(s, c), Reconcile(c.name, 9, true)) == Waiting(s, c)
  {
    var m := Managing(s, c);
    LeaverPass(m, c);
    var p := B.DeleteWorkPass(m, 9, OAUTH_WORK);
    assert p.after.works == s.works[OAUTH_WORK := Work(PUSHED, Some(PUSHED), true, true)];
    assert B.RestoreOriginalPass(p.after, 8) == Pass(Waiting(s, c), 7, Failed);
  }

  lemma AppliesOriginal(s: Cluster, c: ClusterOAuth)
    requires s.document.Decodable?
    ensures Step(Waiting(s, c), AgentApplies(ORIGINAL_WORK)) == Restored(s, c)
  {
    var o := Originals(s.document);
    assert o[..1] == [o[0]];
    assert LastDocument(o) == LastDocument([o[0]]) == Some(Normalise(s.document));
    assert Applicable(o);
    assert AfterApplying(Waiting(s, c), ORIGINAL_WORK).works == Restored(s, c).works;
  }

  lemma SecondLeave(s: Cluster, c: ClusterOAuth)
    requires Idle(s)
    ensures Step(Restored(s, c), Reconcile(c.name, 9, true)) == Released(s)
  {
    var r := Restored(s, c);
    LeaverPass(r, c);
    assert B.DeleteWorkPass(r, 9, OAUTH_WORK) == Pass(r, 9, Done);
    assert B.PutManifests(r.works, ORIGINAL_WORK, Originals(s.document)) == r.works;
    var t := r.(backup := None);
    assert B.RestoreOriginalPass(r, 9) == Pass(t, 7, Done);
    var u := t.(works := Released(s).works);
    assert DeletedWork(t.works, ORIGINAL_WORK) == u.works;
    assert B.DeleteWorkPass(t, 7, ORIGINAL_WORK) == Pass(u, 6, Done);
    assert UnmanagePass(r, 9) == Pass(u, 6, Done);
  }

  lemma Finishes(s: Cluster)
    requires Idle(s)
    ensures Step(Released(s), FinishWork(OAUTH_WORK)) == Held(s)
  {
    assert Released(s).works - {OAUTH_WORK} == Held(s).works;
  }

  lemma LeaveStep(s: Cluster, c: ClusterOAuth, states: seq<Cluster>, k: nat)
    requires Idle(s) && ORIGINAL_WORK !in s.works && s.document.Decodable? && k < 4
    requires states == [Managing(s, c), Waiting(s, c), Restored(s, c), Released(s), Held(s)]
    ensures Step(states[k], Leave(c)[k]) == states[k + 1]
  {
    match k
    case 0 => FirstLeave(s, c);
    case 1 => AppliesOriginal(s, c);
    case 2 => SecondLeave(s, c);
    case _ => Finishes(s);
  }

  lemma LeaveRestores(s: Cluster, c: ClusterOAuth)
    requires Idle(s) && ORIGINAL_WORK !in s.works && s.document.Decodable?
    ensures Run(Managing(s, c), Leave(c)) == Held(s) && SameOAuth(Held(s).document, s.document)
  {
    var states := [Managing(s, c), Waiting(s, c), Restored(s, c), Released(s), Held(s)];
    forall k | 0 <= k < 4 ensures Step(states[k], Leave(c)[k]) == states[k + 1] {
      LeaveStep(s, c, states, k);
    }
    RunAlong(Managing(s, c), Leave(c), states);
  }

  /** The second cycle ends with the operator's OAuth on the cluster, and nothing else. */
  function Lost(s: Cluster): Cluster {
    s.(works := s.works[OAUTH_WORK := Work(PUSHED, Some(PUSHED), true, true)], document := NOTHING)
  }

  /** A leave that meets the Applied condition of an earlier original, in a work that is still held. */
  lemma StaleLeave(s: Cluster, c: ClusterOAuth, d: Raw, old_: seq<Manifest>)
    requires Idle(s) && ORIGINAL_WORK !in s.works
    ensures var held := s.(works := s.works[ORIGINAL_WORK := Work(old_, Some(old_), true, true)], document := d);
            Run(Managing(held, c), [Reconcile(c.name, 9, true), FinishWork(ORIGINAL_WORK)]) == Lost(s)
  {
    var held := s.(works := s.works[ORIGINAL_WORK := Work(old_, Some(old_), true, true)], document := d);
    var m := Managing(held, c);
    var es := [Reconcile(c.name, 9, true), FinishWork(ORIGINAL_WORK)];
    var gone := m.(oauths := [], backup := None,
                   works := s.works[ORIGINAL_WORK := Work(Originals(d), Some(old_), true, true)]
                                   [OAUTH_WORK := Work(PUSHED, Some(PUSHED), true, true)]);
    StalePass(m, c, gone.works, d, Work(old_, Some(old_), true, true));
    FinishesOriginal(gone, s);
    var states := [m, gone, Lost(s)];
    RunAlong(m, es, states);
  }

  /** A leave that meets an Applied condition, whatever it is for. */
  lemma StalePass(m: Cluster, c: ClusterOAuth, works: map<string, Work>, d: Raw, old_: Work)
    requires !m.hosted && m.managed && m.oauths == [Leaver(c)] && m.backup == Some(Backup(Some(d)))
    requires OAUTH_WORK in m.works && m.works[OAUTH_WORK] == Work(PUSHED, Some(PUSHED), true, false)
    requires ORIGINAL_WORK in m.works && m.works[ORIGINAL_WORK] == old_ && old_.applied.Some? && old_.finalizer
    requires works == m.works[ORIGINAL_WORK := old_.(manifests := Originals(d), deleting := true)]
                             [OAUTH_WORK := Work(PUSHED, Some(PUSHED), true, true)]
    ensures Step(m, Reconcile(c.name, 9, true)) == m.(oauths := [], backup := None, works := works)
  {
    LeaverPass(m, c);
    var p := B.DeleteWorkPass(m, 9, OAUTH_WORK);
    assert p == Pass(m.(works := m.works[OAUTH_WORK := Work(PUSHED, Some(PUSHED), true, true)]), 8, Done);
    var written := p.after.works[ORIGINAL_WORK := old_.(manifests := Originals(d))];
    assert B.PutManifests(p.after.works, ORIGINAL_WORK, Originals(d)) == written;
    var t := m.(works := written, backup := None);
    assert B.RestoreOriginalPass(p.after, 8) == Pass(t, 6, Done);
    StaleDeleted(t, works, old_.(manifests := Originals(d)));
  }

  lemma StaleDeleted(t: Cluster, works: map<string, Work>, work: Work)
    requires ORIGINAL_WORK in t.works && t.works[ORIGINAL_WORK] == work && work.finalizer
    requires works == t.works[ORIGINAL_WORK := work.(deleting := true)]
    ensures B.DeleteWorkPass(t, 6, ORIGINAL_WORK).after == t.(works := works)
    ensures B.DeleteWorkPass(t, 6, ORIGINAL_WORK).outcome.Done? && B.DeleteWorkPass(t, 6, ORIGINAL_WORK).writes > 0
  {
    assert work.deleting ==> works == t.works;
  }

  lemma FinishesOriginal(gone: Cluster, s: Cluster)
    requires ORIGINAL_WORK !in s.works && ORIGINAL_WORK in gone.works && gone.works[ORIGINAL_WORK].deleting
    requires gone == Lost(s).(works := gone.works) && gone.works - {ORIGINAL_WORK} == Lost(s).works
    ensures Step(gone, FinishWork(ORIGINAL_WORK)) == Lost(s)
  {
  }

  /** The unmanaged cluster between the two cycles, after its user has changed the OAuth. */
  function Between(s: Cluster, d: Raw): Cluster {
    Held(s).(document := d)
  }

  lemma EditsHeld(s: Cluster, d: Raw)
    requires Unmanaged(s) && Named(d, "cluster")
    ensures Run(Held(s), [UserEdits(d)]) == Between(s, d)
  {
    RunOne(Held(s), UserEdits(d));
  }

  lemma RunsFollow(s: Cluster, a: seq<Event>, t: Cluster, b: seq<Event>, u: Cluster)
    requires Run(s, a) == t && Run(t, b) == u
    ensures Run(s, a + b) == u
  {
    RunAppend(s, a, b);
  }

  function OneCycleAndEdit(c: ClusterOAuth, d: Raw): seq<Event> {
    Cycle(c) + Leave(c) + [UserEdits(d)]
  }

  lemma OneCycle(s: Cluster, c: ClusterOAuth, d: Raw)
    requires Unmanaged(s) && s.works == map[] && s.document.Decodable? && Named(d, "cluster")
    requires Plain(c) && c.strategy == Some(Backplane)
    ensures Run(s, OneCycleAndEdit(c, d)) == Between(s, d)
  {
    CycleManages(s, c);
    LeaveRestores(s, c);
    RunsFollow(s, Cycle(c), Managing(s, c), Leave(c), Held(s));
    EditsHeld(s, d);
    RunsFollow(s, Cycle(c) + Leave(c), Held(s), [UserEdits(d)], Between(s, d));
  }

  lemma SecondCycle(s: Cluster, c: ClusterOAuth, d: Raw)
    requires Unmanaged(s) && s.works == map[] && Plain(c) && c.strategy == Some(Backplane)
    ensures Run(Between(s, d), Cycle(c) + [Reconcile(c.name, 9, true), FinishWork(ORIGINAL_WORK)]) == Lost(s)
  {
    CycleManages(Between(s, d), c);
    StaleLeave(s, c, d, Originals(s.document));
    RunsFollow(Between(s, d), Cycle(c), Managing(Between(s, d), c),
               [Reconcile(c.name, 9, true), FinishWork(ORIGINAL_WORK)], Lost(s));
  }

  /** A user changes the OAuth between two cycles, while the agent still holds the work that restored
      it after the first. At the end of the second cycle the namespace is empty, the operator's OAuth is
      on the cluster, and what the user had put there is neither in a backup nor in a work. */
  lemma LosesSecondOriginal(s: Cluster, c: ClusterOAuth, d: Raw)
    requires Unmanaged(s) && s.works == map[] && s.document.Decodable? && Named(d, "cluster")
    requires Plain(c) && c.strategy == Some(Backplane)
    ensures var es := OneCycleAndEdit(c, d) + (Cycle(c) + [Reconcile(c.name, 9, true), FinishWork(ORIGINAL_WORK)]);
            Run(s, es) == Lost(s)
  {
    OneCycle(s, c, d);
    SecondCycle(s, c, d);
    RunsFollow(s, OneCycleAndEdit(c, d), Between(s, d),
               Cycle(c) + [Reconcile(c.name, 9, true), FinishWork(ORIGINAL_WORK)], Lost(s));
  }
}
