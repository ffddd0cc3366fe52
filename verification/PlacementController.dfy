/** The passes of the placement controller. */
module PlacementController {
  import opened Kube
  import opened Names
  import opened Hub
  import opened HubInvariant
  import opened PlacementSync
  import opened PlacementCreate
  import opened PlacementSafety

  predicate Refers(s: Hub, strategy: Key, placement: Key) {
    strategy in s.strategies && strategy.namespace == placement.namespace &&
        s.strategies[strategy].placement == placement.name
  }

  function RealmOf(s: Hub, strategy: Key): Key
    requires strategy in s.strategies
  {
    Key(strategy.namespace, s.strategies[strategy].realm)
  }

  /** What a pass takes for granted: what each of its syncs does. */
  predicate PassPresumed(s: Hub, placement: Key)
    requires placement in s.placements
  {
    forall st :: st in s.strategies && Refers(s, st, placement) && RealmOf(s, st) in s.realms ==>
      SyncPresumed(s, RealmOf(s, st), st, placement)
  }

  /** Every other strategy that refers to the placement belongs to another realm, which lives. */
  predicate Alone(s: Hub, strategy: Key, placement: Key)
    requires strategy in s.strategies
  {
    forall st :: st in s.strategies && Refers(s, st, placement) && st != strategy ==>
      && RealmOf(s, st) != RealmOf(s, strategy)
      && (RealmOf(s, st) in s.realms ==> !s.realms[RealmOf(s, st)].deleting)
  }

  predicate Sole(s: Hub, strategy: Key, placement: Key) {
    forall st :: st in s.strategies && Refers(s, st, placement) ==> st == strategy
  }

  /** The strategy and its realm are in step, if it is the only one that refers to the placement, or the
      others belong to other, live realms of different names. */
  ghost predicate LeftInStep(s: Hub, strategy: Key, placement: Key)
    requires strategy in s.strategies && placement in s.placements
  {
    Sole(s, strategy, placement) || (WellNamed(s) && Alone(s, strategy, placement)) ==>
      RealmOf(s, strategy) in s.realms && InStep(s, RealmOf(s, strategy), strategy, placement)
  }

  lemma PlacementFinalized(s: Hub, placement: Key)
    requires placement in s.placements && !s.placements[placement].deleting
    ensures var t := PlacementWrites(s, FinalizePlacement(placement, true));
            && t == s.(placements := t.placements) && placement in t.placements
            && t.placements[placement] == s.placements[placement].(finalizer := true)
            && (Inv(s) ==> Inv(t)) && (PassPresumed(s, placement) ==> PassPresumed(t, placement))
  {
    var p := FinalizePlacement(placement, true);
    if Inv(s) {
      TouchingKeeps(s, p);
    }
    FinalizedPresumed(s, PlacementWrites(s, p), placement);
  }

  lemma FinalizedPresumed(s: Hub, t: Hub, placement: Key)
    requires placement in s.placements && placement in t.placements
    requires t == s.(placements := t.placements) &&
        t.placements[placement] == s.placements[placement].(finalizer := true)
    ensures PassPresumed(s, placement) ==> PassPresumed(t, placement)
  {
    if PassPresumed(s, placement) {
      forall st | st in t.strategies && Refers(t, st, placement) && RealmOf(t, st) in t.realms
        ensures SyncPresumed(t, RealmOf(t, st), st, placement)
      {
        assert SyncPresumed(s, RealmOf(s, st), st, placement);
      }
    }
  }

  ghost predicate MayProcess(s: Hub, strategy: Key, placement: Key)
    requires strategy in s.strategies && placement in s.placements
  {
    RealmOf(s, strategy) in s.realms ==> SyncPresumed(s, RealmOf(s, strategy), strategy, placement)
  }

  ghost predicate LeavesOthers(s: Hub, t: Hub, strategy: Key, placement: Key)
    requires strategy in s.strategies && placement in s.placements
  {
    RealmOf(s, strategy) in s.realms ==> SyncLeaves(s, t, RealmOf(s, strategy), s.placements[placement].decisions)
  }

  /** How a pass over one strategy ends. */
  ghost predicate OneEnd(s: Hub, writes: nat, outcome: Outcome, strategy: Key, placement: Key, reported: bool)
    requires strategy in s.strategies && placement in s.placements
  {
    if RealmOf(s, strategy) !in s.realms then outcome.Failed?
    else if outcome.Failed? && !reported then true
    else (outcome.Done? ==> reported) && SyncEnd(s, writes, outcome, RealmOf(s, strategy), strategy, placement)
  }

  /** processPlacement for the realm of the strategy, and the report to its status, which may fail. */
  method ProcessPlacement(store: HubStore, strategy: Key, placement: Key, reported: bool)
    returns (outcome: Outcome, ghost run: seq<Action>)
    requires NamedByRealm(store.hub) && placement in store.hub.placements && Refers(store.hub, strategy, placement)
    modifies store
    ensures Leads(old(store.hub), run, store.hub) && OnlyConfigs(old(store.hub), store.hub) && NamedByRealm(store.hub)
    ensures Inv(old(store.hub)) && MayProcess(old(store.hub), strategy, placement) ==>
              Inv(store.hub) && Midway(old(store.hub), store.hub, placement)
    ensures OneEnd(store.hub, store.writes, outcome, strategy, placement, reported)
    ensures LeavesOthers(old(store.hub), store.hub, strategy, placement)
  {
    var realm := RealmOf(store.hub, strategy);
    if realm !in store.hub.realms {
      return Failed, [];
    }
    outcome, run := SyncSafely(store, realm, strategy, placement);
    if outcome.Done? && !reported {
      outcome := Failed;
    }
  }

  /** A sync leaves no orphan, wherever it is cut short. */
  method SyncSafely(store: HubStore, realm: Key, strategy: Key, placement: Key)
    returns (outcome: Outcome, ghost run: seq<Action>)
    requires NamedByRealm(store.hub) && placement in store.hub.placements && strategy in store.hub.strategies
    requires realm == RealmOf(store.hub, strategy) && realm in store.hub.realms
    modifies store
    ensures Leads(old(store.hub), run, store.hub) && OnlyConfigs(old(store.hub), store.hub) && NamedByRealm(store.hub)
    ensures Inv(old(store.hub)) && MayProcess(old(store.hub), strategy, placement) ==>
              Inv(store.hub) && Midway(old(store.hub), store.hub, placement)
    ensures SyncEnd(store.hub, store.writes, outcome, realm, strategy, placement)
    ensures SyncLeaves(old(store.hub), store.hub, realm, store.hub.placements[placement].decisions)
  {
    ghost var s := store.hub;
    outcome, run := SyncDexClients(store, realm, strategy, placement);
    if Inv(s) && MayProcess(s, strategy, placement) {
      SyncKeeps(s, s, run, realm, strategy, placement);
    }
  }

  /** A pass that got from `s0` to `s` left no orphan. */
  ghost predicate PassSafe(s0: Hub, s: Hub, placement: Key)
    requires placement in s0.placements
  {
    Inv(s0) && PassPresumed(s0, placement) ==> Inv(s) && Midway(s0, s, placement)
  }

  /** What a pass takes for granted survives each sync. */
  lemma SafeThen(s0: Hub, s: Hub, t: Hub, strategy: Key, placement: Key)
    requires placement in s0.placements && s.placements == s0.placements && PassSafe(s0, s, placement)
    requires SameSetUp(s0, s) && Refers(s, strategy, placement)
    requires Inv(s) && MayProcess(s, strategy, placement) ==> Inv(t) && Midway(s, t, placement)
    ensures PassSafe(s0, t, placement)
  {
    if Inv(s0) && PassPresumed(s0, placement) && RealmOf(s, strategy) in s.realms {
      assert SyncPresumed(s0, RealmOf(s0, strategy), strategy, placement);
    }
  }

  /** Every listed strategy refers to the placement and has been synced. */
  ghost predicate Synced(s: Hub, strategies: seq<Key>, placement: Key)
    requires placement in s.placements
  {
    forall st <- strategies :: Refers(s, st, placement) && RealmOf(s, st) in s.realms && LeftInStep(s, st, placement)
  }

  lemma SyncedThen(s: Hub, t: Hub, writes: nat, strategies: seq<Key>, i: nat, placement: Key, reported: bool)
    requires i < |strategies| && OnlyConfigs(s, t) && placement in s.placements && Refers(s, strategies[i], placement)
    requires Synced(s, strategies[..i], placement) && LeavesOthers(s, t, strategies[i], placement)
    requires OneEnd(t, writes, Done, strategies[i], placement, reported)
    ensures Synced(t, strategies[..i + 1], placement)
  {
    forall st | st in strategies[..i + 1]
      ensures Refers(t, st, placement) && RealmOf(t, st) in t.realms && LeftInStep(t, st, placement)
    {
      if st != strategies[i] {
        assert st in strategies[..i];
        StaysLeft(s, t, st, strategies[i], placement);
      }
    }
  }

  /** A strategy that was left in step is so after the sync of another one. */
  lemma StaysLeft(s: Hub, t: Hub, strategy: Key, other: Key, placement: Key)
    requires placement in s.placements && Refers(s, strategy, placement) && Refers(s, other, placement) &&
        strategy != other
    requires OnlyConfigs(s, t) && LeavesOthers(s, t, other, placement) && RealmOf(s, other) in s.realms
    requires LeftInStep(s, strategy, placement)
    ensures LeftInStep(t, strategy, placement)
  {
    if WellNamed(t) && Alone(t, strategy, placement) {
      assert Alone(s, strategy, placement) && WellNamed(s);
      InStepStays(s, t, RealmOf(s, strategy), strategy, placement, RealmOf(s, other));
    }
  }

  /** How a pass over all strategies ends: it only fails on a failing write, a missing AuthRealm, a
      missing address or an AuthRealm whose status cannot be updated, and only waits for an obsolete
      DexClient. */
  ghost predicate PassEnd(s: Hub, writes: nat, outcome: Outcome, placement: Key, unreported: set<Key>)
    requires placement in s.placements
  {
    match outcome
    case Done => AllSynced(s, placement)
    case Requeue => exists st :: st in s.strategies && Waits(s, st, placement)
    case Failed => || writes == 0 || AddressMissing(s, placement)
                   || (exists st :: st in s.strategies && Stranded(s, st, placement))
                   || (exists st :: st in unreported && Refers(s, st, placement))
    case RequeueAfter => false
  }

  lemma EndsPass(s: Hub, writes: nat, outcome: Outcome, strategy: Key, placement: Key, unreported: set<Key>)
    requires placement in s.placements && Refers(s, strategy, placement) && !outcome.Done?
    requires OneEnd(s, writes, outcome, strategy, placement, strategy !in unreported)
    ensures PassEnd(s, writes, outcome, placement, unreported)
  {
    if RealmOf(s, strategy) in s.realms {
      assert outcome.Requeue? ==> Waits(s, strategy, placement);
    } else {
      assert Stranded(s, strategy, placement);
    }
  }

  ghost predicate Waits(s: Hub, strategy: Key, placement: Key)
    requires strategy in s.strategies && placement in s.placements
  {
    && Refers(s, strategy, placement) && RealmOf(s, strategy) in s.realms
    && !NoneObsolete(s, RealmOf(s, strategy), strategy, placement)
    && Advanced(s, RealmOf(s, strategy), strategy, placement)
  }

  predicate Stranded(s: Hub, strategy: Key, placement: Key)
    requires strategy in s.strategies
  {
    Refers(s, strategy, placement) && RealmOf(s, strategy) !in s.realms
  }

  /** GetStrategyFromPlacement. */
  method StrategiesOf(s: Hub, placement: Key) returns (strategies: seq<Key>)
    ensures forall st :: st in strategies <==> Refers(s, st, placement)
  {
    var listed := KeysIn(s.strategies, placement.namespace);
    strategies := [];
    for i := 0 to |listed|
      invariant forall st :: st in strategies <==> st in listed[..i] && Refers(s, st, placement)
    {
      if s.strategies[listed[i]].placement == placement.name {
        strategies := strategies + [listed[i]];
      }
    }
  }

  /** The loop over the strategies that refer to the placement; `unreported` are those whose AuthRealm
      refuses the update of its status. */
  method ProcessStrategies(store: HubStore, placement: Key, unreported: set<Key>)
    returns (outcome: Outcome, ghost run: seq<Action>)
    requires NamedByRealm(store.hub) && placement in store.hub.placements
    modifies store
    ensures Leads(old(store.hub), run, store.hub) && OnlyConfigs(old(store.hub), store.hub)
    ensures PassSafe(old(store.hub), store.hub, placement)
    ensures PassEnd(store.hub, store.writes, outcome, placement, unreported)
  {
    ghost var begun := store.hub;
    var strategies := StrategiesOf(store.hub, placement);
    outcome, run := ProcessAll(store, strategies, placement, unreported);
    if outcome.Done? {
      AllOfThem(begun, store.hub, strategies, placement);
    }
  }

  method ProcessAll(store: HubStore, strategies: seq<Key>, placement: Key, unreported: set<Key>)
    returns (outcome: Outcome, ghost run: seq<Action>)
    requires NamedByRealm(store.hub) && placement in store.hub.placements
    requires forall st <- strategies :: Refers(store.hub, st, placement)
    modifies store
    ensures Leads(old(store.hub), run, store.hub) && OnlyConfigs(old(store.hub), store.hub)
    ensures PassSafe(old(store.hub), store.hub, placement)
    ensures if outcome.Done? then Synced(store.hub, strategies, placement)
            else PassEnd(store.hub, store.writes, outcome, placement, unreported)
  {
    ghost var begun := store.hub;
    run := [];
    for i := 0 to |strategies|
      invariant Leads(begun, run, store.hub) && Progress(begun, store.hub, strategies, i, placement)
    {
      ghost var s, done := store.hub, run;
      var strategy := strategies[i];
      RefersStill(begun, s, strategies, i, placement);
      outcome, run := ProcessPlacement(store, strategy, placement, strategy !in unreported);
      LeadsThen(begun, done, s, run, store.hub);
      run := done + run;
      SafeThen(begun, s, store.hub, strategy, placement);
      if !outcome.Done? {
        EndsPass(store.hub, store.writes, outcome, strategy, placement, unreported);
        return;
      }
      SyncedThen(s, store.hub, store.writes, strategies, i, placement, strategy !in unreported);
    }
    assert strategies[..|strategies|] == strategies;
    outcome := Done;
  }

  /** The loop has synced the first `i` strategies. */
  ghost predicate Progress(begun: Hub, s: Hub, strategies: seq<Key>, i: nat, placement: Key)
    requires i <= |strategies| && placement in begun.placements
  {
    && OnlyConfigs(begun, s) && NamedByRealm(s) && PassSafe(begun, s, placement)
    && Synced(s, strategies[..i], placement)
  }

  lemma RefersStill(begun: Hub, s: Hub, strategies: seq<Key>, i: nat, placement: Key)
    requires i < |strategies| && OnlyConfigs(begun, s)
    requires forall st <- strategies :: Refers(begun, st, placement)
    ensures Refers(s, strategies[i], placement)
  {
    assert strategies[i] in strategies;
  }

  ghost predicate AllSynced(s: Hub, placement: Key)
    requires placement in s.placements
  {
    forall st :: st in s.strategies && Refers(s, st, placement) ==>
        RealmOf(s, st) in s.realms && LeftInStep(s, st, placement)
  }

  lemma AllOfThem(s0: Hub, s: Hub, strategies: seq<Key>, placement: Key)
    requires placement in s.placements && s.strategies == s0.strategies
    requires forall st :: st in strategies <==> Refers(s0, st, placement)
    requires Synced(s, strategies, placement)
    ensures AllSynced(s, placement)
  {
    forall st | st in s.strategies && Refers(s, st, placement) ensures RealmOf(s, st) in s.realms &&
        LeftInStep(s, st, placement) {
      assert Refers(s0, st, placement);
    }
  }

  /** processPlacementUpdate: the finalizer, then one sync per strategy that refers to the placement.
      Cut short anywhere, it leaves no orphan; ending with Done, it leaves the realm in step. */
  method ProcessPlacementUpdate(store: HubStore, placement: Key, unreported: set<Key>)
    returns (outcome: Outcome, ghost run: seq<Action>)
    requires NamedByRealm(store.hub) && placement in store.hub.placements && !store.hub.placements[placement].deleting
    modifies store
    ensures Leads(old(store.hub), run, store.hub) && SameSetUp(old(store.hub), store.hub)
    ensures placement in store.hub.placements &&
        (store.hub == old(store.hub) || store.hub.placements[placement].finalizer)
    ensures Inv(old(store.hub)) && PassPresumed(old(store.hub), placement) ==> Inv(store.hub)
    ensures PassEnd(store.hub, store.writes, outcome, placement, unreported)
  {
    var ok;
    ok, run := AddFinalizer(store, placement);
    if !ok {
      return Failed, run;
    }
    ghost var s, done := store.hub, run;
    outcome, run := ProcessStrategies(store, placement, unreported);
    LeadsThen(old(store.hub), done, s, run, store.hub);
    run := done + run;
  }

  method AddFinalizer(store: HubStore, placement: Key) returns (ok: bool, ghost run: seq<Action>)
    requires placement in store.hub.placements && !store.hub.placements[placement].deleting
    modifies store
    ensures Leads(old(store.hub), run, store.hub)
    ensures store.hub == old(store.hub).(placements := store.hub.placements)
    ensures placement in store.hub.placements
    ensures if ok then store.hub.placements[placement].finalizer else store.hub == old(store.hub) && store.writes == 0
    ensures Inv(old(store.hub)) ==> Inv(store.hub)
    ensures PassPresumed(old(store.hub), placement) ==> PassPresumed(store.hub, placement)
  {
    PlacementFinalized(store.hub, placement);
    ok, run := store.Write(ByPlacement(FinalizePlacement(placement, true)));
  }

  /** No ClusterOAuth of the owners is left in any of the clusters. */
  predicate NoneOwned(s: Hub, clusters: seq<string>, owners: seq<string>) {
    forall c <- clusters :: NoOAuthOwned(s, c, owners)
  }

  /** The pass waits for the ClusterOAuths of one of the clusters, all of which are being deleted. */
  ghost predicate WaitsForOne(s: Hub, clusters: seq<string>, owners: seq<string>) {
    exists c <- clusters :: !NoOAuthOwned(s, c, owners) && OwnedMarked(s, c, owners)
  }

  lemma ClearedThen(s: Hub, t: Hub, clusters: seq<string>, i: nat, owners: seq<string>)
    requires i < |clusters| && ConfigsWent(s, t) && NoneOwned(s, clusters[..i], owners) &&
        NoOAuthOwned(t, clusters[i], owners)
    ensures NoneOwned(t, clusters[..i + 1], owners)
  {
    forall c | c in clusters[..i + 1] ensures NoOAuthOwned(t, c, owners) {
      if c != clusters[i] {
        assert c in clusters[..i] && NoOAuthOwned(s, c, owners);
      }
    }
  }

  /** processPlacementDeletion: clears the decided clusters one by one. */
  method ClearDecided(store: HubStore, decisions: seq<string>, owners: seq<string>)
    returns (outcome: Outcome, ghost run: seq<Action>)
    requires NamedByRealm(store.hub)
    modifies store
    ensures Leads(old(store.hub), run, store.hub) && ConfigsWent(old(store.hub), store.hub)
    ensures Inv(old(store.hub)) ==> Inv(store.hub)
    ensures if outcome.Failed? then store.writes == 0 else outcome.Done? <==> NoneOwned(store.hub, decisions, owners)
    ensures outcome in {Done, Requeue, Failed} && (outcome.Requeue? ==> WaitsForOne(store.hub, decisions, owners))
  {
    outcome, run := ClearClusters(store, decisions, owners);
    if Inv(old(store.hub)) {
      TouchingRunKeeps(old(store.hub), run);
    }
  }

  method ClearClusters(store: HubStore, decisions: seq<string>, owners: seq<string>)
    returns (outcome: Outcome, ghost run: seq<Action>)
    requires NamedByRealm(store.hub)
    modifies store
    ensures Leads(old(store.hub), run, store.hub) && ConfigsWent(old(store.hub), store.hub)
    ensures forall a <- run :: ConfigDeletion(a)
    ensures if outcome.Failed? then store.writes == 0 else outcome.Done? <==> NoneOwned(store.hub, decisions, owners)
    ensures outcome in {Done, Requeue, Failed} && (outcome.Requeue? ==> WaitsForOne(store.hub, decisions, owners))
  {
    run := [];
    for i := 0 to |decisions|
      invariant Leads(old(store.hub), run, store.hub) && ConfigsWent(old(store.hub), store.hub) &&
          NamedByRealm(store.hub)
      invariant forall a <- run :: ConfigDeletion(a)
      invariant NoneOwned(store.hub, decisions[..i], owners)
    {
      ghost var s, done := store.hub, run;
      outcome, run := DeleteClusterOAuthConfig(store, decisions[i], owners);
      LeadsThen(old(store.hub), done, s, run, store.hub);
      ConfigsWentTwice(old(store.hub), s, store.hub);
      run := done + run;
      if !outcome.Done? {
        assert decisions[i] in decisions;
        return;
      }
      ClearedThen(s, store.hub, decisions, i, owners);
    }
    assert decisions[..|decisions|] == decisions;
    outcome := Done;
  }

  lemma PlacementReleased(s: Hub, placement: Key)
    requires placement in s.placements && s.placements[placement].deleting
    ensures PlacementWrites(s, FinalizePlacement(placement, false)) == s.(placements := s.placements - {placement})
  {
  }

  /** Writes that touch no DexClient and create no ClusterOAuth keep the invariant. */
  lemma {:induction false} TouchingRunKeeps(s: Hub, run: seq<Action>)
    requires Inv(s) && Legal(s, run) && forall a <- run :: a.ByPlacement? && OnlyTouches(a.p)
    ensures Inv(Run(s, run))
    decreases |run|
  {
    if run != [] {
      TouchingKeeps(s, run[0].p);
      TouchingRunKeeps(Apply(s, run[0]), run[1..]);
    }
  }

  /** The pass for a placement in deletion: its DexClients stay, and it is released only when no
      ClusterOAuth of its strategies is left in a decided cluster. */
  method ReleasePlacement(store: HubStore, placement: Key) returns (outcome: Outcome, ghost run: seq<Action>)
    requires NamedByRealm(store.hub) && placement in store.hub.placements && store.hub.placements[placement].deleting
    modifies store
    ensures Leads(old(store.hub), run, store.hub)
    ensures store.hub.dexClients == old(store.hub).dexClients
    ensures outcome in {Done, Requeue, Failed}
    ensures outcome.Failed? ==> store.writes == 0
    ensures outcome.Done? <==> placement !in store.hub.placements
    ensures var p := old(store.hub).placements[placement];
            !outcome.Failed? ==> (placement !in store.hub.placements <==> NoneOwned(store.hub, p.decisions, p.owners))
    ensures var p := old(store.hub).placements[placement];
            outcome.Requeue? ==> WaitsForOne(store.hub, p.decisions, p.owners)
    ensures ConfigsWent(old(store.hub), store.hub.(placements := old(store.hub).placements))
    ensures Inv(old(store.hub)) ==> Inv(store.hub)
  {
    var p := store.hub.placements[placement];
    outcome, run := ClearDecided(store, p.decisions, p.owners);
    if !outcome.Done? {
      return;
    }
    ghost var s, done := store.hub, run;
    var ok;
    ok, run := RemoveFinalizer(store, placement);
    LeadsThen(old(store.hub), done, s, run, store.hub);
    run := done + run;
    outcome := if ok then Done else Failed;
  }

  method RemoveFinalizer(store: HubStore, placement: Key) returns (ok: bool, ghost run: seq<Action>)
    requires placement in store.hub.placements && store.hub.placements[placement].deleting
    modifies store
    ensures Leads(old(store.hub), run, store.hub)
    ensures store.hub == if ok then old(store.hub).(placements := old(store.hub).placements - {placement})
        else old(store.hub)
    ensures !ok ==> store.writes == 0
    ensures Inv(old(store.hub)) ==> Inv(store.hub)
  {
    ghost var s := store.hub;
    PlacementReleased(s, placement);
    ok, run := store.Write(ByPlacement(FinalizePlacement(placement, false)));
    if Inv(s) {
      TouchingKeeps(s, FinalizePlacement(placement, false));
    }
  }

  /** How a pass for a placement in deletion ends. */
  ghost predicate ReleaseEnd(s: Hub, t: Hub, writes: nat, outcome: Outcome, placement: Key)
    requires placement in s.placements
  {
    var p := s.placements[placement];
    && t.dexClients == s.dexClients
    && match outcome
       case Done => placement !in t.placements && NoneOwned(t, p.decisions, p.owners)
       case Requeue => placement in t.placements && WaitsForOne(t, p.decisions, p.owners)
       case Failed => placement in t.placements && writes == 0
       case RequeueAfter => false
  }

  /** Reconcile: no pass of the placement controller, cut short anywhere, leaves an orphan. */
  method Reconcile(store: HubStore, placement: Key, unreported: set<Key>)
    returns (outcome: Outcome, ghost run: seq<Action>)
    requires Inv(store.hub) && (placement in store.hub.placements ==> PassPresumed(store.hub, placement))
    modifies store
    ensures Leads(old(store.hub), run, store.hub) && Inv(store.hub)
    ensures if placement !in old(store.hub).placements then outcome.Done? && store.hub == old(store.hub)
            else if old(store.hub).placements[placement].deleting then
              ReleaseEnd(old(store.hub), store.hub, store.writes, outcome, placement)
            else placement in store.hub.placements && PassEnd(store.hub, store.writes, outcome, placement, unreported)
  {
    if placement !in store.hub.placements {
      return Done, [];
    }
    assert NamedByRealm(store.hub) by {
      assert forall k :: k in store.hub.oauths ==> Configured(store.hub, k);
    }
    if store.hub.placements[placement].deleting {
      outcome, run := ReleasePlacement(store, placement);
    } else {
      outcome, run := ProcessPlacementUpdate(store, placement, unreported);
    }
  }
}
