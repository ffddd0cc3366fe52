/** Runs of strategy passes, each cut short anywhere: exactly when every placement lists the strategies
    that refer to it, which a sync of the placement controller takes for granted. */
module OwnershipRuns {
  import opened Kube
  import opened Names
  import Hub
  import PlacementSafety
  import opened StrategyController

  ghost predicate AllListed(s: Space) {
    forall n :: n in s.strategies ==> Listed(s, n)
  }

  ghost predicate DistinctUids(s: Space) {
    forall a, b :: a in s.strategies && b in s.strategies && a != b ==> s.strategies[a].uid != s.strategies[b].uid
  }

  /** A pass for the strategy `name`. */
  ghost predicate Passed(s: Space, t: Space, name: string) {
    && name in s.strategies
    && if s.strategies[name].deleting then t == s || (HasRealm(s, name) && UntiedInOrder(s, t, name))
       else Updated(s, t, name)
  }

  /** What everybody else does: owners and references stay as they are, and what is new does not refer to
      what is there, nor the other way round. */
  ghost predicate Elsewhere(s: Space, t: Space) {
    && DistinctUids(t)
    && (forall n :: n in t.strategies && t.strategies[n].placement in t.placements ==>
          n in s.strategies && t.strategies[n].(finalizer := false, deleting := false) ==
                               s.strategies[n].(finalizer := false, deleting := false) &&
          t.strategies[n].placement in s.placements)
    && (forall p :: p in t.placements && p in s.placements ==> t.placements[p].owners == s.placements[p].owners)
  }

  /** Between the two writes of its deletion, for a strategy that was listed once and not at the end. */
  predicate Leaving(s: Space, t: Space, name: string)
    requires name in s.strategies
  {
    HasRealm(s, name) && var made, uid := Made(s, name), s.strategies[name].uid;
    && made in s.placements && s.strategies[name].placement == made
    && t == WithPlacement(s, made, Left(s.placements[made], uid))
    && multiset(s.placements[made].owners)[uid] == 1
    && s.placements[made].owners[|s.placements[made].owners| - 1] != uid
  }

  /** The pass was cut short in one of the windows. */
  ghost predicate Window(s: Space, t: Space, name: string)
    requires name in s.strategies
  {
    if s.strategies[name].deleting then Leaving(s, t, name)
    else exists any :: any in s.strategies && Exposed(s, t, name, any)
  }

  lemma UpdatedExactly(s: Space, t: Space, name: string)
    requires AllListed(s) && Passed(s, t, name) && !s.strategies[name].deleting
    ensures AllListed(t) <==> !Window(s, t, name)
  {
    if TiedInOrder(s, t, name) {
      TiedExactly(s, t, name);
    } else {
      var f := Finalized(s, name);
      forall n | n in t.strategies ensures Listed(t, n) {
        assert n in s.strategies && Listed(f, n) && Listed(s, n);
        DeletingKeepsOwners(f, t, RealmOf(s, name).placement, n);
      }
    }
  }

  lemma TiedExactly(s: Space, t: Space, name: string)
    requires name in s.strategies && AllListed(s) && TiedInOrder(s, t, name)
    ensures AllListed(t) <==> forall any :: any in s.strategies ==> !Exposed(s, t, name, any)
  {
    assert t.strategies.Keys == s.strategies.Keys;
    forall any | any in s.strategies ensures any in t.strategies && (Listed(t, any) <==> !Exposed(s, t, name, any)) {
      TyingKeepsOwners(s, t, name, any);
    }
  }

  lemma ReleasedExactly(s: Space, t: Space, name: string)
    requires DistinctUids(s) && AllListed(s) && Passed(s, t, name) && s.strategies[name].deleting
    ensures AllListed(t) <==> !Leaving(s, t, name)
  {
    assert Listed(s, name);
    if t != s {
      forall any | any in t.strategies && any != name ensures Listed(t, any) {
        UntyingKeepsOwners(s, t, name, any);
      }
      if Made(s, name) in s.placements && s.strategies[name].placement == Made(s, name) {
        LeaverListed(s, name);
      }
    } else if Leaving(s, t, name) {
      LeaverListed(s, name);
    }
  }

  /** One pass from a state in which every strategy is listed. */
  lemma PassKeepsExactly(s: Space, t: Space, name: string)
    requires DistinctUids(s) && AllListed(s) && Passed(s, t, name)
    ensures AllListed(t) <==> !Window(s, t, name)
  {
    if s.strategies[name].deleting {
      ReleasedExactly(s, t, name);
    } else {
      UpdatedExactly(s, t, name);
    }
  }

  lemma ElsewhereKeeps(s: Space, t: Space)
    requires AllListed(s) && Elsewhere(s, t)
    ensures AllListed(t)
  {
    forall n | n in t.strategies ensures Listed(t, n) {
      if t.strategies[n].placement in t.placements {
        assert Listed(s, n);
      }
    }
  }

  ghost predicate SameUids(s: Space, t: Space) {
    forall n :: n in t.strategies ==> n in s.strategies && t.strategies[n].uid == s.strategies[n].uid
  }

  lemma UpdateKeepsUids(s: Space, t: Space, name: string)
    requires name in s.strategies && Updated(s, t, name)
    ensures SameUids(s, t)
  {
  }

  lemma ReleaseKeepsUids(s: Space, t: Space, name: string)
    requires HasRealm(s, name) && UntiedInOrder(s, t, name)
    ensures SameUids(s, t)
  {
  }

  lemma UidsStay(s: Space, t: Space, name: string)
    requires DistinctUids(s) && Passed(s, t, name)
    ensures DistinctUids(t)
  {
    if !s.strategies[name].deleting {
      UpdateKeepsUids(s, t, name);
    } else if t != s {
      ReleaseKeepsUids(s, t, name);
    }
  }

  // ----- runs -----

  /** The `k`-th step is a pass for the strategy that is named there, or somebody else's. */
  ghost predicate Follows(states: seq<Space>, names: seq<Option<string>>) {
    && |states| == |names| + 1
    && forall k :: 0 <= k < |names| ==> StepOf(states[k], states[k + 1], names[k])
  }

  ghost predicate StepOf(s: Space, t: Space, name: Option<string>) {
    if name.Some? then Passed(s, t, name.value) else Elsewhere(s, t)
  }

  ghost predicate Cut(s: Space, t: Space, name: Option<string>) {
    name.Some? && name.value in s.strategies && Window(s, t, name.value)
  }

  lemma StepKeepsExactly(s: Space, t: Space, name: Option<string>)
    requires DistinctUids(s) && AllListed(s) && StepOf(s, t, name)
    ensures AllListed(t) <==> !Cut(s, t, name)
  {
    if name.Some? {
      PassKeepsExactly(s, t, name.value);
    } else {
      ElsewhereKeeps(s, t);
    }
  }

  lemma {:induction false} UidsThroughout(states: seq<Space>, names: seq<Option<string>>, k: nat)
    requires Follows(states, names) && DistinctUids(states[0]) && k <= |names|
    ensures DistinctUids(states[k])
  {
    if k > 0 {
      UidsThroughout(states, names, k - 1);
      assert StepOf(states[k - 1], states[k], names[k - 1]);
      if names[k - 1].Some? {
        UidsStay(states[k - 1], states[k], names[k - 1].value);
      }
    }
  }

  predicate AllOf(bs: seq<bool>) {
    forall k :: 0 <= k < |bs| ==> bs[k]
  }

  lemma {:induction false} UnlessCut(listed: seq<bool>, uncut: seq<bool>)
    requires |listed| == |uncut| + 1 && listed[0]
    requires forall k :: 0 <= k < |uncut| && listed[k] ==> (listed[k + 1] <==> uncut[k])
    ensures AllOf(listed) <==> AllOf(uncut)
  {
    if uncut != [] {
      var n := |uncut| - 1;
      UnlessCut(listed[..n + 1], uncut[..n]);
      assert listed == listed[..n + 1] + [listed[n + 1]] && uncut == uncut[..n] + [uncut[n]];
      assert AllOf(listed) <==> AllOf(listed[..n + 1]) && listed[n + 1];
      assert AllOf(uncut) <==> AllOf(uncut[..n]) && uncut[n];
      assert AllOf(listed[..n + 1]) ==> listed[..n + 1][n];
    }
  }

  /** Whether every strategy is listed, at each point of a run; and whether each step is no cut in a window. */
  ghost function ListedAt(states: seq<Space>): (bs: seq<bool>)
    ensures |bs| == |states| && forall k :: 0 <= k < |states| ==> bs[k] == AllListed(states[k])
  {
    seq(|states|, k requires 0 <= k < |states| => AllListed(states[k]))
  }

  ghost function UncutAt(states: seq<Space>, names: seq<Option<string>>): (bs: seq<bool>)
    requires |states| == |names| + 1
    ensures |bs| == |names| && forall k :: 0 <= k < |names| ==> bs[k] == !Cut(states[k], states[k + 1], names[k])
  {
    seq(|names|, k requires 0 <= k < |names| => !Cut(states[k], states[k + 1], names[k]))
  }

  lemma StepsKeepExactly(states: seq<Space>, names: seq<Option<string>>, k: nat)
    requires Follows(states, names) && DistinctUids(states[0]) && k < |names| && ListedAt(states)[k]
    ensures ListedAt(states)[k + 1] <==> UncutAt(states, names)[k]
  {
    UidsThroughout(states, names, k);
    StepKeepsExactly(states[k], states[k + 1], names[k]);
  }

  /** Over a whole run every strategy is listed at all times exactly when no pass is cut short in a window. */
  lemma RunKeepsExactly(states: seq<Space>, names: seq<Option<string>>)
    requires Follows(states, names) && DistinctUids(states[0]) && AllListed(states[0])
    ensures AllOf(ListedAt(states)) <==> AllOf(UncutAt(states, names))
  {
    var listed, uncut := ListedAt(states), UncutAt(states, names);
    forall k | 0 <= k < |uncut| && listed[k] ensures listed[k + 1] <==> uncut[k] {
      StepsKeepExactly(states, names, k);
    }
    UnlessCut(listed, uncut);
  }

  // ----- what a sync takes for granted -----

  /** The hub shows the strategies and placements of the namespace; owners are named by their strategies. */
  ghost predicate Shows(h: Hub.Hub, s: Space, ns: string) {
    && (forall n :: n in s.strategies ==> Key(ns, n) in h.strategies)
    && (forall p :: p in s.placements ==> Key(ns, p) in h.placements)
    && (forall n, p :: n in s.strategies && p in s.placements ==>
          (n in h.placements[Key(ns, p)].owners <==> s.strategies[n].uid in s.placements[p].owners))
  }

  /** The clause about owners holds for every strategy and the placement that it refers to exactly when
      every strategy is listed. */
  lemma ListedMeansOwners(h: Hub.Hub, s: Space, ns: string)
    requires Shows(h, s, ns)
    ensures AllListed(s) <==>
            forall n :: n in s.strategies && s.strategies[n].placement in s.placements ==>
              n in h.placements[Key(ns, s.strategies[n].placement)].owners
  {
    forall n | n in s.strategies
      ensures Listed(s, n) <==> (s.strategies[n].placement in s.placements ==>
              n in h.placements[Key(ns, s.strategies[n].placement)].owners)
    {
    }
  }

  /** For a run without cuts in a window, what is left to presume of a sync is the type of the clusters
      and that none of them returns. */
  lemma OwnersNeedNotBePresumed(states: seq<Space>, names: seq<Option<string>>, h: Hub.Hub, ns: string, realm: Key,
                                n: string)
    requires Follows(states, names) && DistinctUids(states[0]) && AllListed(states[0])
    requires AllOf(UncutAt(states, names))
    requires var s := states[|names|];
             Shows(h, s, ns) && n in s.strategies && s.strategies[n].placement in s.placements
    requires realm in h.realms && Hub.Owns(h, realm, Key(ns, n))
    ensures var strategy, placement := Key(ns, n), Key(ns, states[|names|].strategies[n].placement);
            PlacementSafety.SyncPresumed(h, realm, strategy, placement) <==>
              (forall c <- h.placements[placement].decisions :: Hub.TypeOf(h, c) == h.strategies[strategy].stype)
              && PlacementSafety.NoneReturns(h, realm, h.placements[placement].decisions)
  {
    RunKeepsExactly(states, names);
    ListedMeansOwners(h, states[|names|], ns);
  }
}
