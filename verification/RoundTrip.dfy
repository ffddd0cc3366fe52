/** Hosted clusters: replacing and restoring the OAuth item is a round trip. */
module RoundTrip {
  import opened Kube
  import opened ClusterState
  import opened Aggregation
  import opened HypershiftManager
  import opened ClusterEvents
  import C = ClusterOAuthController

  // ----- what the operator's edits preserve, item by item -----

  /** `items` is `base` with the OAuth at its index replaced or, when there was none, with one item of
      that name added. */
  ghost predicate TracksItems(base: seq<Raw>, items: seq<Raw>) {
    var i := FirstNamed(base, OAUTH_NAME);
    if i != -1 then
      |items| == |base| && Named(items[i], OAUTH_NAME) && forall k :: 0 <= k < |base| && k != i ==> items[k] == base[k]
    else
      multiset(items) == multiset(base) ||
      exists x :: Named(x, OAUTH_NAME) && multiset(items) == multiset(base) + multiset{x}
  }

  /** What restoring must give back: the same OAuth at its index, perhaps in another spelling, or the same
      items when there was none. */
  predicate GivenBack(base: seq<Raw>, items: seq<Raw>) {
    var i := FirstNamed(base, OAUTH_NAME);
    if i != -1 then
      |items| == |base| && SameOAuth(items[i], base[i]) && forall k :: 0 <= k < |base| && k != i ==> items[k] == base[k]
    else multiset(items) == multiset(base)
  }

  /** The backup holds the OAuth of these items, or nothing when they have none. */
  predicate SavedFrom(base: seq<Raw>, b: Backup) {
    var i := FirstNamed(base, OAUTH_NAME);
    if i != -1 then b.json.Some? && SameOAuth(b.json.value, base[i]) else b.json.None?
  }

  lemma UnnamedCounts(base: seq<Raw>, items: seq<Raw>)
    requires FirstNamed(base, OAUTH_NAME) == -1 && multiset(items) == multiset(base)
    ensures FirstNamed(items, OAUTH_NAME) == -1
  {
    forall k | 0 <= k < |items| ensures !Named(items[k], OAUTH_NAME) {
      assert items[k] in multiset(items);
      assert items[k] in multiset(base);
    }
  }

  lemma OneNamedCounts(base: seq<Raw>, items: seq<Raw>, x: Raw)
    requires FirstNamed(base, OAUTH_NAME) == -1 && Named(x, OAUTH_NAME)
    requires multiset(items) == multiset(base) + multiset{x}
    ensures FirstNamed(items, OAUTH_NAME) != -1 && items[FirstNamed(items, OAUTH_NAME)] == x
  {
    assert x in multiset(items);
    var j :| 0 <= j < |items| && items[j] == x;
    var i := FirstNamed(items, OAUTH_NAME);
    assert items[i] in multiset(items);
    assert forall r :: r in multiset(base) ==> r in base && !Named(r, OAUTH_NAME);
  }

  /** Moving the last item over the removed one, and cutting the end, removes exactly that item. */
  lemma SwapRemoveCounts(items: seq<Raw>, i: nat)
    requires i < |items|
    ensures multiset(items[i := items[|items| - 1]][..|items| - 1]) == multiset(items) - multiset{items[i]}
  {
    var n := |items| - 1;
    var t := items[i := items[n]];
    assert t == t[..n] + [t[n]];
    assert t[n] == items[n];
    assert multiset(t) == multiset(t[..n]) + multiset{items[n]};
    assert multiset(t) == multiset(items) - multiset{items[i]} + multiset{items[n]};
    assert multiset(t[..n]) == multiset(t) - multiset{items[n]};
  }

  lemma SameFirstNamed(base: seq<Raw>, items: seq<Raw>, i: nat)
    requires i < |base| == |items| && FirstNamed(base, OAUTH_NAME) == i && Named(items[i], OAUTH_NAME)
    requires forall k :: 0 <= k < |base| && k != i ==> items[k] == base[k]
    ensures FirstNamed(items, OAUTH_NAME) == i
  {
    FirstNamedUnique(items, OAUTH_NAME, i);
  }

  lemma PushOntoUnnamed(base: seq<Raw>, items: seq<Raw>, data: Raw)
    requires FirstNamed(base, OAUTH_NAME) == -1 && multiset(items) == multiset(base)
    ensures multiset(PushedItems(items, data)) == multiset(base) + multiset{data}
  {
    UnnamedCounts(base, items);
  }

  lemma PushOverNamed(base: seq<Raw>, items: seq<Raw>, x: Raw, data: Raw)
    requires FirstNamed(base, OAUTH_NAME) == -1 && Named(x, OAUTH_NAME)
    requires multiset(items) == multiset(base) + multiset{x}
    ensures multiset(PushedItems(items, data)) == multiset(base) + multiset{data}
  {
    OneNamedCounts(base, items, x);
    var p := FirstNamed(items, OAUTH_NAME);
    assert multiset(items[p := data]) == multiset(items) - multiset{x} + multiset{data};
  }

  lemma PushTracks(base: seq<Raw>, items: seq<Raw>, data: Raw)
    requires TracksItems(base, items) && Named(data, OAUTH_NAME)
    ensures TracksItems(base, PushedItems(items, data))
  {
    var i := FirstNamed(base, OAUTH_NAME);
    if i != -1 {
      SameFirstNamed(base, items, i);
    } else if multiset(items) == multiset(base) {
      PushOntoUnnamed(base, items, data);
    } else {
      var x :| Named(x, OAUTH_NAME) && multiset(items) == multiset(base) + multiset{x};
      PushOverNamed(base, items, x, data);
    }
  }

  lemma RestoreNamed(base: seq<Raw>, items: seq<Raw>, x: Raw)
    requires FirstNamed(base, OAUTH_NAME) == -1 && Named(x, OAUTH_NAME)
    requires multiset(items) == multiset(base) + multiset{x}
    ensures FirstNamed(items, OAUTH_NAME) != -1
    ensures multiset(RestoredItems(items, FirstNamed(items, OAUTH_NAME), Backup(None))) == multiset(base)
  {
    OneNamedCounts(base, items, x);
    SwapRemoveCounts(items, FirstNamed(items, OAUTH_NAME));
    assert multiset(items) - multiset{x} == multiset(base);
  }

  lemma RestoredInPlace(base: seq<Raw>, items: seq<Raw>, b: Backup, i: nat)
    requires TracksItems(base, items) && FirstNamed(base, OAUTH_NAME) == i
    ensures FirstNamed(items, OAUTH_NAME) == i
    ensures GivenBack(base, RestoredItems(items, i, b)) <==> SavedFrom(base, b)
  {
    SameFirstNamed(base, items, i);
    if b.json.Some? {
      var restored := RestoredItems(items, i, b);
      assert restored == base[i := b.json.value];
    }
  }

  lemma RestoredAway(base: seq<Raw>, items: seq<Raw>, b: Backup, x: Raw)
    requires FirstNamed(base, OAUTH_NAME) == -1 && Named(x, OAUTH_NAME)
    requires multiset(items) == multiset(base) + multiset{x}
    ensures FirstNamed(items, OAUTH_NAME) != -1
    ensures GivenBack(base, RestoredItems(items, FirstNamed(items, OAUTH_NAME), b)) <==> SavedFrom(base, b)
  {
    OneNamedCounts(base, items, x);
    if b.json.Some? {
      var restored := RestoredItems(items, FirstNamed(items, OAUTH_NAME), b);
      assert |items| == |multiset(items)| == |base| + 1;
      assert |multiset(restored)| == |base| + 1 && |multiset(base)| == |base|;
    } else {
      RestoreNamed(base, items, x);
    }
  }

  /** Restoring gives back the items exactly when the backup in use is the one of those items. */
  lemma RestoredExactly(base: seq<Raw>, b: Backup, items: seq<Raw>)
    requires TracksItems(base, items) && FirstNamed(items, OAUTH_NAME) != -1
    ensures GivenBack(base, RestoredItems(items, FirstNamed(items, OAUTH_NAME), b)) <==> SavedFrom(base, b)
  {
    var i := FirstNamed(base, OAUTH_NAME);
    if i != -1 {
      RestoredInPlace(base, items, b, i);
    } else if multiset(items) == multiset(base) {
      UnnamedCounts(base, items);
    } else {
      var x :| Named(x, OAUTH_NAME) && multiset(items) == multiset(base) + multiset{x};
      RestoredAway(base, items, b, x);
    }
  }

  lemma RestoreTracks(base: seq<Raw>, items: seq<Raw>, b: Backup)
    requires TracksItems(base, items) && SavedFrom(base, b)
    requires FirstNamed(items, OAUTH_NAME) != -1
    ensures GivenBack(base, RestoredItems(items, FirstNamed(items, OAUTH_NAME), b))
    ensures TracksItems(base, RestoredItems(items, FirstNamed(items, OAUTH_NAME), b))
  {
    RestoredExactly(base, b, items);
  }

  lemma AppendTracks(base: seq<Raw>, items: seq<Raw>, item: Raw)
    requires TracksItems(base, items) && OfOthers(item)
    ensures TracksItems(base + [item], items + [item])
    ensures forall b :: SavedFrom(base, b) ==> SavedFrom(base + [item], b)
  {
    var i := FirstNamed(base, OAUTH_NAME);
    if i != -1 {
      assert Named((base + [item])[i], OAUTH_NAME);
      FirstNamedUnique(base + [item], OAUTH_NAME, i);
    } else {
      assert forall k :: 0 <= k < |base + [item]| ==> !Named((base + [item])[k], OAUTH_NAME);
      if multiset(items) != multiset(base) {
        var x :| Named(x, OAUTH_NAME) && multiset(items) == multiset(base) + multiset{x};
        assert multiset(items + [item]) == multiset(base + [item]) + multiset{x};
      }
    }
  }

  /** When there was no OAuth and nobody else appended: `base`, or `base` and the operator's item. */
  predicate InOrder(base: seq<Raw>, items: seq<Raw>) {
    FirstNamed(base, OAUTH_NAME) == -1 ==>
      items == base || (|items| == |base| + 1 && items[..|base|] == base && Named(items[|base|], OAUTH_NAME))
  }

  lemma EditsInOrder(base: seq<Raw>, items: seq<Raw>, b: Backup, data: Raw)
    requires FirstNamed(base, OAUTH_NAME) == -1 && InOrder(base, items) && b.json.None? && Named(data, OAUTH_NAME)
    ensures InOrder(base, PushedItems(items, data))
    ensures FirstNamed(items, OAUTH_NAME) == -1 ==> items == base
    ensures FirstNamed(items, OAUTH_NAME) != -1 ==> RestoredItems(items, FirstNamed(items, OAUTH_NAME), b) == base
  {
    if items != base {
      assert forall k :: 0 <= k < |base| ==> items[k] == items[..|base|][k];
      FirstNamedUnique(items, OAUTH_NAME, |base|);
    }
  }

  // ----- one event, then any run -----

  function ItemsOf(s: Cluster): seq<Raw>
    requires |s.deployments| == 1
  {
    s.deployments[0].Items()
  }

  ghost predicate Tracks(base: seq<Raw>, s: Cluster) {
    s.hosted && |s.deployments| == 1 && s.backup.Some? && SavedFrom(base, s.backup.value) &&
        TracksItems(base, ItemsOf(s))
  }

  /** How a pass can change the items of a hosted cluster whose backup exists. */
  ghost predicate PassShape(s: Cluster, t: Cluster)
    requires |s.deployments| == 1 && s.backup.Some?
  {
    var items := ItemsOf(s);
    && t.hosted == s.hosted
    && |t.deployments| == 1
    && (|| (t.backup == s.backup && ItemsOf(t) == items)
        || (t.backup == s.backup && exists data :: Named(data, OAUTH_NAME) && ItemsOf(t) == PushedItems(items, data))
        || (FirstNamed(items, OAUTH_NAME) != -1 && (t.backup == s.backup || t.backup.None?)
            && C.H.LastLeaver(s)
            && ItemsOf(t) == RestoredItems(items, FirstNamed(items, OAUTH_NAME), s.backup.value)))
  }

  lemma PushShape(s: Cluster, writes: nat)
    requires |s.deployments| == 1 && s.backup.Some?
    ensures PassShape(s, PushPass(s, writes).after)
  {
    assert Named(SingleOAuth(s.ns, s.oauths), OAUTH_NAME);
  }

  lemma RestoreShape(s: Cluster, writes: nat)
    requires |s.deployments| == 1 && s.backup.Some? && LastLeaver(s)
    ensures PassShape(s, RestorePass(s, writes).after)
  {
  }

  lemma ProcessShape(s: Cluster, writes: nat, i: nat)
    requires |s.deployments| == 1 && s.backup.Some? && i < |s.oauths|
    ensures PassShape(s, C.ProcessPass(s, writes, i).after)
  {
    var p := Written(s, writes, s.(oauths := s.oauths[i := s.oauths[i].(finalizer := true)]));
    if s.oauths[i].strategy.Some? {
      var t := s.oauths[i].strategy.value;
      assert C.SavePass(t, p.after, p.writes).after == p.after;
      if t.Hypershift? {
        PushShape(p.after, p.writes);
      }
    }
  }

  lemma ReconcileShape(s: Cluster, writes: nat, name: string, reported: bool)
    requires s.hosted && |s.deployments| == 1 && s.backup.Some?
    ensures PassShape(s, C.ReconcilePass(s, writes, name, reported).after)
  {
    var i := FindOAuth(s.oauths, name);
    if i != -1 {
      if !s.oauths[i].deleting {
        ProcessShape(s, writes, i);
      } else if LastLeaver(s) {
        RestoreShape(s, writes);
      } else {
        PushShape(s, writes);
      }
    }
  }

  lemma PassTracks(base: seq<Raw>, s: Cluster, t: Cluster)
    requires Tracks(base, s) && PassShape(s, t) && t.backup.Some?
    ensures Tracks(base, t)
  {
    var items := ItemsOf(s);
    if ItemsOf(t) != items {
      if data :| Named(data, OAUTH_NAME) && ItemsOf(t) == PushedItems(items, data) {
        PushTracks(base, items, data);
      } else {
        RestoreTracks(base, items, s.backup.value);
      }
    }
  }

  lemma AppendItemTracks(base: seq<Raw>, s: Cluster, e: Event)
    requires e.AppendItem? && Tracks(base, s)
    ensures Tracks(base + AppendedBy(e), Step(s, e))
  {
    if OfOthers(e.item) {
      AppendTracks(base, ItemsOf(s), e.item);
    } else {
      assert base + [] == base;
    }
  }

  lemma OtherEventTracks(base: seq<Raw>, s: Cluster, e: Event)
    requires !e.Reconcile? && !e.AppendItem? && !Edits(s, e) && Tracks(base, s)
    ensures Tracks(base, Step(s, e))
  {
    assert Step(s, e).deployments == s.deployments && Step(s, e).backup == s.backup && Step(s, e).hosted == s.hosted;
  }

  lemma StepTracks(base: seq<Raw>, s: Cluster, e: Event)
    requires Tracks(base, s) && Step(s, e).backup.Some? && !Edits(s, e)
    ensures Tracks(base + AppendedBy(e), Step(s, e))
  {
    if e.AppendItem? {
      AppendItemTracks(base, s, e);
    } else {
      assert base + AppendedBy(e) == base;
      if e.Reconcile? {
        ReconcileShape(s, e.writes, e.name, e.reported);
        PassTracks(base, s, Step(s, e));
      } else {
        OtherEventTracks(base, s, e);
      }
    }
  }

  /** A completed Save makes the current items the base of a round trip exactly when it created the
      backup, or found the backup of these items. */
  lemma SaveStarts(s: Cluster, writes: nat)
    requires s.hosted && |s.deployments| == 1 && SavePass(s, writes).outcome.Done?
    ensures Tracks(ItemsOf(s), SavePass(s, writes).after) <==>
            s.backup.None? || SavedFrom(ItemsOf(s), s.backup.value)
  {
    var items := ItemsOf(s);
    assert TracksItems(items, items);
  }

  /** The backup exists in every state of the run. */
  predicate BackedUpThroughout(s: Cluster, es: seq<Event>) {
    Run(s, es).backup.Some? && (es == [] || BackedUpThroughout(s, es[..|es| - 1]))
  }

  lemma {:induction false} RunTracks(base: seq<Raw>, s: Cluster, es: seq<Event>)
    requires Tracks(base, s)
    requires BackedUpThroughout(s, es) && Undisturbed(s, es)
    ensures Tracks(base + Appended(es), Run(s, es))
  {
    if es == [] {
      assert base + [] == base;
    } else {
      var n := |es| - 1;
      RunTracks(base, s, es[..n]);
      RunLast(s, es);
      ExtendTracks(base, Appended(es[..n]), Run(s, es[..n]), es[n]);
    }
  }

  lemma RunLast(s: Cluster, es: seq<Event>)
    requires es != []
    ensures Run(s, es) == Step(Run(s, es[..|es| - 1]), es[|es| - 1])
  {
  }

  lemma ExtendTracks(base: seq<Raw>, more: seq<Raw>, s: Cluster, e: Event)
    requires Tracks(base + more, s) && Step(s, e).backup.Some? && !Edits(s, e)
    ensures Tracks(base + (more + AppendedBy(e)), Step(s, e))
  {
    StepTracks(base + more, s, e);
    assert (base + more) + AppendedBy(e) == base + (more + AppendedBy(e));
  }

  lemma StepInOrder(base: seq<Raw>, s: Cluster, e: Event)
    requires Tracks(base, s) && InOrder(base, ItemsOf(s)) && AppendedBy(e) == [] && !Edits(s, e)
    requires |Step(s, e).deployments| == 1
    ensures InOrder(base, ItemsOf(Step(s, e)))
    ensures FirstNamed(base, OAUTH_NAME) == -1 && Step(s, e).backup.None? ==> ItemsOf(Step(s, e)) == base
  {
    var items := ItemsOf(s);
    if e.Reconcile? && FirstNamed(base, OAUTH_NAME) == -1 {
      ReconcileShape(s, e.writes, e.name, e.reported);
      var t := Step(s, e);
      if data :| Named(data, OAUTH_NAME) && ItemsOf(t) == PushedItems(items, data) {
        EditsInOrder(base, items, s.backup.value, data);
      }
      EditsInOrder(base, items, s.backup.value, Decodable("OAuth", OAUTH_NAME, Providers([]), 0));
    }
  }

  lemma {:induction false} RunInOrder(base: seq<Raw>, s: Cluster, es: seq<Event>)
    requires Tracks(base, s) && InOrder(base, ItemsOf(s))
    requires BackedUpThroughout(s, es) && Undisturbed(s, es) && Appended(es) == []
    ensures Tracks(base, Run(s, es)) && InOrder(base, ItemsOf(Run(s, es)))
  {
    if es != [] {
      var n := |es| - 1;
      RunInOrder(base, s, es[..n]);
      RunLast(s, es);
      assert base + AppendedBy(es[n]) == base;
      StepTracks(base, Run(s, es[..n]), es[n]);
      StepInOrder(base, Run(s, es[..n]), es[n]);
    }
  }

  /** A list that tracks `base` and holds no OAuth has nothing to give back. */
  lemma UnnamedIsBase(base: seq<Raw>, items: seq<Raw>)
    requires TracksItems(base, items) && FirstNamed(items, OAUTH_NAME) == -1
    ensures GivenBack(base, items)
  {
    if FirstNamed(base, OAUTH_NAME) == -1 && multiset(items) != multiset(base) {
      var x :| Named(x, OAUTH_NAME) && multiset(items) == multiset(base) + multiset{x};
      OneNamedCounts(base, items, x);
    }
  }

  /** Only the last leaver's pass releases the last ClusterOAuth, and with a backup it either removed
      it or had nothing to restore. */
  lemma LastPassShape(s: Cluster, e: Event)
    requires s.hosted && |s.deployments| == 1 && s.backup.Some? && e.Reconcile? && s.oauths != []
    requires Step(s, e).oauths == [] && Step(s, e).backup.Some?
    ensures Step(s, e).deployments == s.deployments && FirstNamed(ItemsOf(s), OAUTH_NAME) == -1
  {
    var i := FindOAuth(s.oauths, e.name);
    C.UnmanageKeepsOAuths(s, e.writes);
    if i != -1 && !s.oauths[i].deleting {
      C.ProcessKeepsCount(s, e.writes, i);
    }
    assert LastLeaver(s);
  }

  /** The pass that ends the management of the cluster, or that removes the backup. */
  lemma LastPassGivesBack(base: seq<Raw>, s: Cluster, e: Event)
    requires Tracks(base, s) && e.Reconcile? && s.oauths != []
    requires Step(s, e).oauths == [] || Step(s, e).backup.None?
    ensures |Step(s, e).deployments| == 1 && GivenBack(base, ItemsOf(Step(s, e)))
    ensures FirstNamed(base, OAUTH_NAME) == -1 && InOrder(base, ItemsOf(s)) ==> ItemsOf(Step(s, e)) == base
  {
    var items, b := ItemsOf(s), s.backup.value;
    ReconcileShape(s, e.writes, e.name, e.reported);
    if FirstNamed(base, OAUTH_NAME) == -1 && InOrder(base, items) {
      StepInOrder(base, s, e);
    }
    if Step(s, e).backup.None? {
      RestoreTracks(base, items, s.backup.value);
    } else {
      LastPassShape(s, e);
      UnnamedIsBase(base, items);
      if FirstNamed(base, OAUTH_NAME) == -1 && InOrder(base, items) {
        EditsInOrder(base, items, b, Decodable("OAuth", OAUTH_NAME, Providers([]), 0));
      }
    }
  }

  /** The round trip: from a completed Save that created the backup, or found that of the current
      items, through any run in which the backup exists and nobody but the operator changes the OAuth,
      to a pass that removes the backup or that releases the last ClusterOAuth. */
  lemma RestoresWhatWasSaved(s0: Cluster, writes: nat, es: seq<Event>, e: Event)
    requires s0.hosted && |s0.deployments| == 1 && SavePass(s0, writes).outcome.Done?
    requires s0.backup.None? || SavedFrom(ItemsOf(s0), s0.backup.value)
    requires var s := SavePass(s0, writes).after;
             && BackedUpThroughout(s, es) && Undisturbed(s, es)
             && e.Reconcile? && Run(s, es).oauths != []
             && (Run(s, es + [e]).oauths == [] || Run(s, es + [e]).backup.None?)
    ensures var t := Run(SavePass(s0, writes).after, es + [e]);
            |t.deployments| == 1 && GivenBack(ItemsOf(s0) + Appended(es), ItemsOf(t))
    ensures var base, t := ItemsOf(s0), Run(SavePass(s0, writes).after, es + [e]);
            Appended(es) == [] && FirstNamed(base, OAUTH_NAME) == -1 ==> ItemsOf(t) == base
  {
    var s, base := SavePass(s0, writes).after, ItemsOf(s0);
    SaveStarts(s0, writes);
    RunTracks(base, s, es);
    RunAppend(s, es, [e]);
    RunOne(Run(s, es), e);
    if Appended(es) == [] {
      RunInOrder(base, s, es);
      assert base + [] == base;
    }
    LastPassGivesBack(base + Appended(es), Run(s, es), e);
  }
}
