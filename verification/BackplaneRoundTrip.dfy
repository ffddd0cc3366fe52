/** Clusters reached through ManifestWorks: exactly when the OAuth that the cluster had before it was
    managed is on it again when the backup is given up. */
module BackplaneRoundTrip {
  import opened Kube
  import opened ClusterState
  import opened Aggregation
  import opened ClusterEvents
  import opened ClusterOAuthController
  import opened Restoring

  /** An OAuth that the operator has put together. */
  predicate Ours(r: Raw) {
    r.Decodable? && r.content.Providers?
  }

  /** The works are the operator's two, and the one it pushes holds an OAuth of its own. */
  predicate OnlyOurs(s: Cluster) {
    && s.works.Keys <= {OAUTH_WORK, ORIGINAL_WORK}
    && (OAUTH_WORK in s.works ==>
          var document := LastDocument(s.works[OAUTH_WORK].manifests);
          document.Some? && Ours(document.value))
  }

  /** No ClusterOAuth of this cluster belongs to the strategy for hosted ones. */
  predicate Agreeing(s: Cluster) {
    !s.hosted && forall c <- s.oauths :: c.strategy != Some(Hypershift)
  }

  predicate EventAgrees(e: Event) {
    e.PutOAuth? ==> e.oauth.strategy != Some(Hypershift)
  }

  // ----- what a pass leaves alone -----

  /** The cluster itself is out of reach, and the works stay as they should. */
  predicate Proper(s: Cluster, t: Cluster) {
    && t.document == s.document && t.hosted == s.hosted
    && (OnlyOurs(s) ==> OnlyOurs(t))
    && (Agreeing(s) ==> Agreeing(t))
  }

  lemma PushProper(s: Cluster, writes: nat)
    ensures Proper(s, B.PushPass(s, writes).after)
  {
    var m := B.PushedManifests(s);
    if m.Some? {
      assert LastDocument(m.value) == Some(SingleOAuth(s.ns, s.oauths));
    }
  }

  lemma SaveProper(s: Cluster, writes: nat)
    ensures Proper(s, B.SavePass(s, writes).after) && B.SavePass(s, writes).after.works == s.works
    ensures B.SavePass(s, writes).after.oauths == s.oauths
  {
  }

  lemma FinalizedProper(s: Cluster, writes: nat, i: nat)
    requires i < |s.oauths|
    ensures Proper(s, Written(s, writes, s.(oauths := s.oauths[i := s.oauths[i].(finalizer := true)])).after)
  {
    var oauths := s.oauths[i := s.oauths[i].(finalizer := true)];
    forall c | c in oauths && Agreeing(s) ensures c.strategy != Some(Hypershift) {
      var j :| 0 <= j < |oauths| && oauths[j] == c;
      assert s.oauths[j] in s.oauths;
    }
  }

  lemma ProcessProper(s: Cluster, writes: nat, i: nat)
    requires i < |s.oauths| && Agreeing(s)
    ensures Proper(s, ProcessPass(s, writes, i).after)
  {
    FinalizedProper(s, writes, i);
    var p := Written(s, writes, s.(oauths := s.oauths[i := s.oauths[i].(finalizer := true)]));
    assert s.oauths[i] in s.oauths;
    if s.oauths[i].strategy == Some(Backplane) {
      SaveProper(p.after, p.writes);
      var q := B.SavePass(p.after, p.writes);
      PushProper(q.after, q.writes);
    }
  }

  lemma DeleteWorkProper(s: Cluster, writes: nat, name: string)
    ensures Proper(s, B.DeleteWorkPass(s, writes, name).after)
  {
  }

  lemma RestoreOriginalProper(s: Cluster, writes: nat)
    requires s.backup.Some?
    ensures Proper(s, B.RestoreOriginalPass(s, writes).after)
  {
  }

  lemma RestoreProper(s: Cluster, writes: nat)
    ensures Proper(s, B.RestorePass(s, writes).after)
  {
    var p := B.DeleteWorkPass(s, writes, OAUTH_WORK);
    DeleteWorkProper(s, writes, OAUTH_WORK);
    assert p.after.backup == s.backup;
    if s.backup.Some? {
      RestoreOriginalProper(p.after, p.writes);
    }
    var q := if s.backup.None? then p else B.RestoreOriginalPass(p.after, p.writes);
    DeleteWorkProper(q.after, q.writes, ORIGINAL_WORK);
  }

  lemma DroppedAgrees(s: Cluster, i: nat)
    requires i < |s.oauths| && Agreeing(s)
    ensures Agreeing(s.(oauths := Drop(s.oauths, i)))
  {
  }

  lemma ReconcileProper(s: Cluster, e: Event)
    requires e.Reconcile? && Agreeing(s)
    ensures Proper(s, Step(s, e))
  {
    var i := FindOAuth(s.oauths, e.name);
    if i != -1 {
      if s.oauths[i].deleting {
        if B.LastLeaver(s) {
          RestoreProper(s, e.writes);
        } else {
          PushProper(s, e.writes);
        }
        UnmanageKeepsOAuths(s, e.writes);
        DroppedAgrees(s, i);
      } else {
        ProcessProper(s, e.writes, i);
      }
    }
  }

  lemma StepAgrees(s: Cluster, e: Event)
    requires Agreeing(s) && EventAgrees(e)
    ensures Agreeing(Step(s, e))
  {
    if e.Reconcile? {
      ReconcileProper(s, e);
    } else if e.PutOAuth? {
      PutAgrees(s.oauths, e.oauth);
    } else if e.DeleteOAuth? {
      DeletedAgrees(s.oauths, e.name);
    }
  }

  lemma PutAgrees(oauths: seq<ClusterOAuth>, c: ClusterOAuth)
    requires (forall x <- oauths :: x.strategy != Some(Hypershift)) && c.strategy != Some(Hypershift)
    ensures forall x <- PutInto(oauths, c) :: x.strategy != Some(Hypershift)
  {
    var i := FindOAuth(oauths, c.name);
    if i != -1 {
      var after := PutInto(oauths, c);
      assert forall k :: 0 <= k < |after| && k != i ==> after[k] in oauths;
    }
  }

  lemma DeletedAgrees(oauths: seq<ClusterOAuth>, name: string)
    requires forall x <- oauths :: x.strategy != Some(Hypershift)
    ensures forall x <- DeletedFrom(oauths, name) :: x.strategy != Some(Hypershift)
  {
    var i := FindOAuth(oauths, name);
    if i != -1 && oauths[i].finalizer {
      var after := DeletedFrom(oauths, name);
      assert oauths[i] in oauths && forall k :: 0 <= k < |after| && k != i ==> after[k] in oauths;
    }
  }

  // ----- what the agent did last -----

  /** Only lists that say something about the OAuth count. */
  function NextApplied(s: Cluster, e: Event, last: Option<seq<Manifest>>): Option<seq<Manifest>> {
    if e.AgentApplies? && Applies(s, e.work) && LastDocument(s.works[e.work].manifests).Some? then
      Some(s.works[e.work].manifests)
    else last
  }

  /** The manifests that the agent applied last in the run, or `before` it. */
  function LastApplied(s: Cluster, es: seq<Event>, before: Option<seq<Manifest>>): Option<seq<Manifest>> {
    if es == [] then before
    else NextApplied(Run(s, es[..|es| - 1]), es[|es| - 1], LastApplied(s, es[..|es| - 1], before))
  }

  /** When the view was filled: in the run, after the agent had applied `last`, or before it. */
  datatype Filling = Earlier | After(last: Option<seq<Manifest>>)

  function NextFilled(s: Cluster, e: Event, last: Option<seq<Manifest>>, filled: Filling): Filling {
    if e.FillView? && s.view.Some? then After(last) else filled
  }

  function LastFilled(s: Cluster, es: seq<Event>): Filling {
    if es == [] then Earlier
    else
      var front := es[..|es| - 1];
      NextFilled(Run(s, front), es[|es| - 1], LastApplied(s, front, None), LastFilled(s, front))
  }

  /** What the restoring work holds. */
  function Leftover(s: Cluster): Option<seq<Manifest>> {
    if ORIGINAL_WORK in s.works then Some(s.works[ORIGINAL_WORK].manifests) else None
  }

  function ViewResult(s: Cluster): Option<Raw> {
    if s.view.Some? then s.view.value.result else None
  }

  // In what follows `s0` is the cluster at the start of a run.

  /** What the applied manifests make of the OAuth of the cluster. */
  function DocumentAfter(s0: Cluster, last: Option<seq<Manifest>>): Raw {
    if last.Some? && LastDocument(last.value).Some? then LastDocument(last.value).value else s0.document
  }

  /** What the view shows. */
  function ViewAfter(s0: Cluster, filled: Filling): Option<Raw> {
    if filled.Earlier? then ViewResult(s0) else Some(DocumentAfter(s0, filled.last))
  }

  /** Manifests that the operator pushed, or those that were in the restoring work at the start. */
  predicate PushedOrLeftover(s0: Cluster, last: Option<seq<Manifest>>) {
    last.Some? ==>
      LastDocument(last.value).Some? && (Ours(LastDocument(last.value).value) || last == Leftover(s0))
  }

  // ----- until the backup exists -----

  /** Nothing is saved yet. */
  predicate Unsaved(s0: Cluster, s: Cluster, last: Option<seq<Manifest>>, filled: Filling) {
    && Agreeing(s) && s.backup.None? && OnlyOurs(s) && Leftover(s) in {None, Leftover(s0)}
    && PushedOrLeftover(s0, last) && (filled.After? ==> PushedOrLeftover(s0, filled.last))
    && s.document == DocumentAfter(s0, last) && ViewResult(s) in {None, ViewAfter(s0, filled)}
  }

  /** What a pass does to the view, to the backup that it may make of it, and to the restoring work. */
  predicate ViewShape(s: Cluster, t: Cluster) {
    && (t.backup.None? ==> ViewResult(t) in {None, ViewResult(s)})
    && (t.backup.Some? ==> t.backup.value.json.Some? && t.backup.value.json == ViewResult(s))
    && Leftover(t) in {None, Leftover(s)}
  }

  lemma ReconcileView(s: Cluster, e: Event)
    requires e.Reconcile? && Agreeing(s) && s.backup.None?
    ensures ViewShape(s, Step(s, e))
  {
    var i := FindOAuth(s.oauths, e.name);
    if i != -1 {
      assert s.oauths[i] in s.oauths;
      if s.oauths[i].deleting {
        UnmanageView(s, e.writes);
      } else if s.oauths[i].strategy == Some(Backplane) {
        ProcessView(s, e.writes, i);
      }
    }
  }

  lemma ProcessView(s: Cluster, writes: nat, i: nat)
    requires s.backup.None? && i < |s.oauths| && s.oauths[i].strategy == Some(Backplane)
    ensures ViewShape(s, ProcessPass(s, writes, i).after)
  {
    var p := Written(s, writes, s.(oauths := s.oauths[i := s.oauths[i].(finalizer := true)]));
    var q := B.SavePass(p.after, p.writes);
    SaveView(p.after, p.writes);
    PushKeepsView(q.after, q.writes);
  }

  lemma SaveView(s: Cluster, writes: nat)
    requires s.backup.None?
    ensures ViewShape(s, B.SavePass(s, writes).after)
  {
  }

  lemma PushKeepsView(s: Cluster, writes: nat)
    ensures var t := B.PushPass(s, writes).after;
            t.view == s.view && t.backup == s.backup && Leftover(t) == Leftover(s)
  {
  }

  lemma UnmanageView(s: Cluster, writes: nat)
    requires !s.hosted && s.backup.None?
    ensures ViewShape(s, UnmanagePass(s, writes).after)
  {
    if B.LastLeaver(s) {
      var p := B.DeleteWorkPass(s, writes, OAUTH_WORK);
      DeleteKeepsView(s, writes, OAUTH_WORK);
      DeleteKeepsView(p.after, p.writes, ORIGINAL_WORK);
    } else {
      PushKeepsView(s, writes);
    }
  }

  lemma DeleteKeepsView(s: Cluster, writes: nat, name: string)
    ensures var t := B.DeleteWorkPass(s, writes, name).after;
            t.view == s.view && t.backup == s.backup && Leftover(t) in {None, Leftover(s)}
  {
  }

  lemma UnsavedStep(s0: Cluster, s: Cluster, e: Event, last: Option<seq<Manifest>>, filled: Filling)
    requires Unsaved(s0, s, last, filled) && !Edits(s, e) && EventAgrees(e) && Step(s, e).backup.None?
    ensures Unsaved(s0, Step(s, e), NextApplied(s, e, last), NextFilled(s, e, last, filled))
  {
    StepAgrees(s, e);
    if e.Reconcile? {
      ReconcileProper(s, e);
      ReconcileView(s, e);
    } else if e.AgentApplies? {
      UnsavedApplies(s0, s, e, last, filled);
    } else {
      UnsavedOther(s0, s, e, last, filled);
    }
  }

  lemma UnsavedApplies(s0: Cluster, s: Cluster, e: Event, last: Option<seq<Manifest>>, filled: Filling)
    requires Unsaved(s0, s, last, filled) && e.AgentApplies? && Agreeing(Step(s, e))
    ensures Unsaved(s0, Step(s, e), NextApplied(s, e, last), filled)
  {
  }

  lemma UnsavedOther(s0: Cluster, s: Cluster, e: Event, last: Option<seq<Manifest>>, filled: Filling)
    requires Unsaved(s0, s, last, filled) && !e.AgentApplies? && !e.Reconcile?
    requires !Edits(s, e) && Agreeing(Step(s, e))
    ensures Unsaved(s0, Step(s, e), last, NextFilled(s, e, last, filled))
  {
    OtherEvent(s, e);
    assert ViewResult(Step(s, e)) == if e.FillView? && s.view.Some? then Some(s.document) else ViewResult(s);
  }

  /** Works may go, or lose a condition. */
  predicate NothingNew(s: Cluster, t: Cluster) {
    && (OnlyOurs(s) ==> OnlyOurs(t)) && Leftover(t) in {None, Leftover(s)}
    && (ORIGINAL_WORK in t.works && t.works[ORIGINAL_WORK].applied.Some? ==>
          ORIGINAL_WORK in s.works && s.works[ORIGINAL_WORK].applied.Some?)
  }

  /** What happens besides passes and the agent's applying. */
  lemma OtherEvent(s: Cluster, e: Event)
    requires !e.Reconcile? && !e.AgentApplies? && !Edits(s, e)
    ensures var t := Step(s, e);
            t.backup == s.backup && t.document == s.document && NothingNew(s, t)
  {
    if e.AgentFails? || e.FinishWork? {
      AgentOther(s, e);
    }
  }

  lemma AgentOther(s: Cluster, e: Event)
    requires e.AgentFails? || e.FinishWork?
    ensures NothingNew(s, Step(s, e))
  {
  }

  /** A pass that creates the backup saves what the view shows: what the cluster had when it was filled. */
  lemma SavedExactly(s0: Cluster, s: Cluster, e: Event, last: Option<seq<Manifest>>, filled: Filling)
    requires Unsaved(s0, s, last, filled) && EventAgrees(e) && Step(s, e).backup.Some?
    ensures var b := Step(s, e).backup.value;
            && e.Reconcile? && b.json.Some? && b.json == ViewAfter(s0, filled)
            && Kept(s0, b, Step(s, e), last)
  {
    StepAgrees(s, e);
    ReconcileProper(s, e);
    ReconcileView(s, e);
  }

  // ----- while the backup exists -----

  /** Without a restoring work at the start, its Applied condition has come from the agent since then. */
  predicate Kept(s0: Cluster, b: Backup, s: Cluster, last: Option<seq<Manifest>>) {
    && Agreeing(s) && s.backup == Some(b) && b.json.Some? && OnlyOurs(s)
    && Leftover(s) in {None, Leftover(s0), Some(B.OriginalManifests(b))}
    && (ORIGINAL_WORK in s.works && s.works[ORIGINAL_WORK].applied.Some? ==> last.Some? || Leftover(s0).Some?)
    && (PushedOrLeftover(s0, last) || last == Some(B.OriginalManifests(b)))
    && s.document == DocumentAfter(s0, last)
  }

  lemma OriginalsDocument(b: Backup)
    ensures LastDocument(B.OriginalManifests(b)) == Some(B.OriginalDocument(b))
  {
    var o := B.OriginalManifests(b);
    assert o[..1] == [o[0]];
    assert LastDocument(o) == LastDocument([o[0]]);
  }

  lemma KeptStep(s0: Cluster, b: Backup, s: Cluster, e: Event, last: Option<seq<Manifest>>)
    requires Kept(s0, b, s, last) && !Edits(s, e) && EventAgrees(e) && Step(s, e).backup == Some(b)
    ensures Kept(s0, b, Step(s, e), NextApplied(s, e, last))
  {
    StepAgrees(s, e);
    if e.Reconcile? {
      ReconcileProper(s, e);
      ReconcileOriginalShape(s, e);
    } else if e.AgentApplies? {
      KeptApplies(s0, b, s, e, last);
    } else {
      OtherEvent(s, e);
    }
  }

  lemma KeptApplies(s0: Cluster, b: Backup, s: Cluster, e: Event, last: Option<seq<Manifest>>)
    requires Kept(s0, b, s, last) && e.AgentApplies? && Agreeing(Step(s, e))
    ensures Kept(s0, b, Step(s, e), NextApplied(s, e, last))
  {
    OriginalsDocument(b);
  }

  /** A pass that gives the backup up does not touch the cluster, and relies on a condition that the
      agent has set since the start, or on the restoring work that was there. */
  lemma GivenUp(s0: Cluster, b: Backup, s: Cluster, e: Event, last: Option<seq<Manifest>>)
    requires Kept(s0, b, s, last) && EventAgrees(e) && Step(s, e).backup != Some(b)
    ensures Step(s, e).backup.None? && Step(s, e).document == DocumentAfter(s0, last)
    ensures last.Some? || Leftover(s0).Some?
    ensures OriginalBack(s, Cut(s, e)) <==> OnCluster(s, b)
  {
    BackupSurvives(s, e);
    GivenUpWhenApplied(s, e);
    ReconcileProper(s, e);
  }

  // ----- runs -----

  /** Users and strategies keep to what a run takes for granted. */
  predicate Proceeds(s: Cluster, es: seq<Event>) {
    Undisturbed(s, es) && forall e <- es :: EventAgrees(e)
  }

  predicate UnsavedThroughout(s: Cluster, es: seq<Event>) {
    Run(s, es).backup.None? && (es == [] || UnsavedThroughout(s, es[..|es| - 1]))
  }

  predicate KeptThroughout(s: Cluster, es: seq<Event>, b: Backup) {
    Run(s, es).backup == Some(b) && (es == [] || KeptThroughout(s, es[..|es| - 1], b))
  }

  lemma LastAgrees(s: Cluster, es: seq<Event>)
    requires es != [] && Proceeds(s, es)
    ensures Proceeds(s, es[..|es| - 1]) && EventAgrees(es[|es| - 1]) && !Edits(Run(s, es[..|es| - 1]), es[|es| - 1])
    ensures Run(s, es) == Step(Run(s, es[..|es| - 1]), es[|es| - 1])
  {
  }

  lemma {:induction false} UnsavedRun(s: Cluster, es: seq<Event>)
    requires Unsaved(s, s, None, Earlier) && UnsavedThroughout(s, es) && Proceeds(s, es)
    ensures Unsaved(s, Run(s, es), LastApplied(s, es, None), LastFilled(s, es))
  {
    if es != [] {
      var n := |es| - 1;
      LastAgrees(s, es);
      UnsavedRun(s, es[..n]);
      UnsavedStep(s, Run(s, es[..n]), es[n], LastApplied(s, es[..n], None), LastFilled(s, es[..n]));
    }
  }

  lemma {:induction false} KeptRun(s0: Cluster, b: Backup, s: Cluster, es: seq<Event>, before: Option<seq<Manifest>>)
    requires Kept(s0, b, s, before) && KeptThroughout(s, es, b) && Proceeds(s, es)
    ensures Kept(s0, b, Run(s, es), LastApplied(s, es, before))
  {
    if es != [] {
      var n := |es| - 1;
      LastAgrees(s, es);
      KeptRun(s0, b, s, es[..n], before);
      KeptStep(s0, b, Run(s, es[..n]), es[n], LastApplied(s, es[..n], before));
    }
  }

  /** The agent has applied nothing, or only what was in the restoring work at the start, and the cluster
      has `wanted` all the same. */
  predicate Untouched(s0: Cluster, last: Option<seq<Manifest>>, wanted: Raw) {
    last in {None, Leftover(s0)} && SameOAuth(DocumentAfter(s0, last), wanted)
  }

  /** The agent has last applied manifests that hold the original of the backup, and the role. */
  predicate Restores(last: Option<seq<Manifest>>, b: Backup) {
    last.Some? && HoldsOriginal(last.value, b)
  }

  lemma OriginalsHold(b: Backup)
    ensures HoldsOriginal(B.OriginalManifests(b), b)
  {
  }

  lemma HeldDocument(manifests: seq<Manifest>, b: Backup)
    requires HoldsOriginal(manifests, b)
    ensures LastDocument(manifests) == Some(manifests[0].raw)
  {
    assert manifests[..1] == [manifests[0]];
    assert LastDocument([manifests[0]]) == Some(manifests[0].raw);
  }

  lemma HoldsExactly(s0: Cluster, b: Backup, last: Option<seq<Manifest>>)
    requires b.json.Some? && !Ours(b.json.value)
    requires PushedOrLeftover(s0, last) || last == Some(B.OriginalManifests(b))
    ensures SameOAuth(DocumentAfter(s0, last), b.json.value) <==>
            Restores(last, b) || Untouched(s0, last, b.json.value)
  {
    OriginalsDocument(b);
    OriginalsHold(b);
    if Restores(last, b) {
      HeldDocument(last.value, b);
    }
  }

  /** A cluster with a backup of its own OAuth, and whatever an earlier cycle has left. */
  predicate Managed(s: Cluster) {
    && Agreeing(s) && OnlyOurs(s)
    && s.backup.Some? && s.backup.value.json.Some? && !Ours(s.backup.value.json.value)
  }

  /** From a managed cluster to the pass that gives the backup up: the original is really back exactly
      when the manifests that the agent applied last are those that restore it, or when the cluster had
      it already and the agent has not changed that. Without a restoring work at the start the second
      cannot be. */
  lemma BackExactly(s: Cluster, es: seq<Event>, leave: Event)
    requires Managed(s) && KeptThroughout(s, es, s.backup.value) && Proceeds(s, es)
    requires EventAgrees(leave) && Step(Run(s, es), leave).backup != s.backup
    ensures var b, t, last := s.backup.value, Run(s, es), LastApplied(s, es, None);
            && Step(t, leave).backup.None?
            && (OriginalBack(t, Cut(t, leave)) <==> OnCluster(Step(t, leave), b))
            && (OnCluster(Step(t, leave), b) <==>
                  Restores(last, b) || Untouched(s, last, b.json.value))
            && (ORIGINAL_WORK !in s.works ==> (OnCluster(Step(t, leave), b) <==> Restores(last, b)))
  {
    var b, last := s.backup.value, LastApplied(s, es, None);
    KeptRun(s, b, s, es, None);
    GivenUp(s, b, Run(s, es), leave, last);
    HoldsExactly(s, b, last);
  }

  /** The cluster before it is managed: whatever works and views are left, its OAuth is its own. */
  predicate Unmanaged(s: Cluster) {
    Agreeing(s) && s.backup.None? && OnlyOurs(s) && !Ours(s.document)
  }

  /** What was saved is what the cluster had at the start. */
  predicate SavedInTime(s0: Cluster, filled: Filling) {
    match filled
    case Earlier => ViewResult(s0).Some? && SameOAuth(ViewResult(s0).value, s0.document)
    case After(last) => Untouched(s0, last, s0.document)
  }

  /** The whole way round: from an unmanaged cluster through the pass `save` that creates the backup to
      the pass `leave` that gives it up, the cluster has its own OAuth again exactly when
      - the view showed that OAuth when it was filled, and the manifests that the agent applied last are
        those that restore it, or
      - the agent has applied nothing at all, or only a work of an earlier cycle with the same OAuth.
      When no earlier cycle has left anything, this comes down to a view that was filled before the agent
      applied what the operator pushed, and a restoring work that it applied last. */
  lemma RestoredExactly(s: Cluster, es: seq<Event>, save: Event, more: seq<Event>, leave: Event)
    requires Unmanaged(s) && UnsavedThroughout(s, es) && Proceeds(s, es)
    requires EventAgrees(save) && Step(Run(s, es), save).backup.Some?
    requires var t := Step(Run(s, es), save); KeptThroughout(t, more, t.backup.value) && Proceeds(t, more)
    requires var t := Step(Run(s, es), save);
             EventAgrees(leave) && Step(Run(t, more), leave).backup != t.backup
    ensures var t := Step(Run(s, es), save);
            var u := Step(Run(t, more), leave);
            var last := LastApplied(t, more, LastApplied(s, es, None));
            var restored := Restores(last, t.backup.value);
            && u.backup.None?
            && (SameOAuth(u.document, s.document) <==>
                  (restored && SavedInTime(s, LastFilled(s, es))) || Untouched(s, last, s.document))
            && (ORIGINAL_WORK !in s.works && ViewResult(s).None? ==>
                  (SameOAuth(u.document, s.document) <==>
                     restored && LastFilled(s, es) == After(None)))
  {
    var t, filled := Step(Run(s, es), save), LastFilled(s, es);
    var b, before := t.backup.value, LastApplied(s, es, None);
    UnsavedRun(s, es);
    SavedExactly(s, Run(s, es), save, before, filled);
    KeptRun(s, b, t, more, before);
    GivenUp(s, b, Run(t, more), leave, LastApplied(t, more, before));
    BroughtBackExactly(s, b, filled, LastApplied(t, more, before));
  }

  /** What the applied manifests mean for the OAuth that the cluster had at the start. */
  lemma BroughtBackExactly(s0: Cluster, b: Backup, filled: Filling, last: Option<seq<Manifest>>)
    requires !Ours(s0.document) && b.json.Some? && b.json == ViewAfter(s0, filled)
    requires filled.After? ==> PushedOrLeftover(s0, filled.last)
    requires PushedOrLeftover(s0, last) || last == Some(B.OriginalManifests(b))
    ensures SameOAuth(DocumentAfter(s0, last), s0.document) <==>
            (Restores(last, b) && SavedInTime(s0, filled)) || Untouched(s0, last, s0.document)
    ensures Leftover(s0).None? && ViewResult(s0).None? && SavedInTime(s0, filled) ==> filled == After(None)
  {
    OriginalsDocument(b);
    OriginalsHold(b);
    if Restores(last, b) {
      HeldDocument(last.value, b);
    }
  }
}
