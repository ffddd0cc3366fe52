/** The placement passes never leave a configuration without its DexClient: under what a sync takes
    for granted when it begins, every prefix of it keeps the invariant of the hub. */
module PlacementSafety {
  import opened Kube
  import opened Names
  import opened Hub
  import opened HubInvariant
  import opened PlacementSync
  import opened PlacementCreate

  predicate ClientNotDeleting(s: Hub, realm: Key, cluster: string)
    requires realm in s.realms
  {
    DexClientKey(s, realm, cluster) in s.dexClients ==> !s.dexClients[DexClientKey(s, realm, cluster)].deleting
  }

  /** None of the clusters waits for the end of its DexClient while the realm lives. */
  predicate NoneReturns(s: Hub, realm: Key, clusters: seq<string>)
    requires realm in s.realms
  {
    !s.realms[realm].deleting ==> forall c <- clusters :: ClientNotDeleting(s, realm, c)
  }

  /** What a sync takes for granted: the placement lists the strategy among its owners, it decided on
      clusters of the strategy's type, and none of them returns. */
  predicate SyncPresumed(s: Hub, realm: Key, strategy: Key, placement: Key)
    requires realm in s.realms && strategy in s.strategies && placement in s.placements
  {
    && Owns(s, realm, strategy)
    && strategy.name in s.placements[placement].owners
    && (forall c <- s.placements[placement].decisions :: TypeOf(s, c) == s.strategies[strategy].stype)
    && NoneReturns(s, realm, s.placements[placement].decisions)
  }

  /** A state in the middle of a sync that began in `s0`. */
  ghost predicate Midway(s0: Hub, s: Hub, placement: Key)
    requires placement in s0.placements
  {
    && SameSetUp(s0, s)
    && forall r :: r in s0.realms && NoneReturns(s0, r, s0.placements[placement].decisions) ==>
         NoneReturns(s, r, s0.placements[placement].decisions)
  }

  lemma SyncWritePresumed(s0: Hub, s: Hub, a: Action, realm: Key, strategy: Key, placement: Key)
    requires realm in s0.realms && strategy in s0.strategies && placement in s0.placements
    requires SyncPresumed(s0, realm, strategy, placement) && Midway(s0, s, placement)
    requires WellNamed(s) && StrategiesHaveRealms(s)
    requires SyncWrite(s0, a, realm, strategy, placement) && PlacementMay(s, a.p)
    ensures PresumedOfPlacement(s, a.p)
  {
    if a.p.DeleteDexClient? {
      assert Held(s, Key(strategy.namespace, s.strategies[strategy].realm));
      forall r | r in s.realms &&
          DexNamespace(s, r) == a.p.key.namespace ensures StrategyName(r.name, a.p.stype) in a.p.owners {
        SameDexNamespace(s, r, realm);
      }
    }
  }

  /** A DexClient only comes to be deleted by its own deletion. */
  lemma OthersNotDeleting(s: Hub, p: PlacementWrite, realm: Key, cluster: string)
    requires realm in s.realms && PlacementMay(s, p) && ClientNotDeleting(s, realm, cluster)
    requires p.DeleteDexClient? ==> p.key != DexClientKey(s, realm, cluster)
    ensures realm in PlacementWrites(s, p).realms && ClientNotDeleting(PlacementWrites(s, p), realm, cluster)
  {
    match p
    case WriteDexClient(r, st, c) => ClientWritten(s, p);
    case DeleteDexClient(key, _, _) =>
    case _ => TouchedClients(s, p);
  }

  lemma TouchedClients(s: Hub, p: PlacementWrite)
    requires PlacementMay(s, p) && !p.WriteDexClient? && !p.DeleteDexClient?
    ensures PlacementWrites(s, p).dexClients == s.dexClients && PlacementWrites(s, p).realms == s.realms
  {
  }

  /** A sync deletes no DexClient of a decided cluster of any realm that lives. */
  lemma DecidedNotDeleted(s: Hub, a: Action, realm: Key, strategy: Key, placement: Key, other: Key, cluster: string)
    requires realm in s.realms && strategy in s.strategies && placement in s.placements && other in s.realms
    requires WellNamed(s) && ClientsHaveRealms(s) && !s.realms[other].deleting &&
        cluster in s.placements[placement].decisions
    requires SyncWrite(s, a, realm, strategy, placement)
    ensures a.p.DeleteDexClient? ==> a.p.key != DexClientKey(s, other, cluster)
  {
    if a.p.DeleteDexClient? && a.p.key == DexClientKey(s, other, cluster) {
      SameDexNamespace(s, other, realm);
      ClientAtKey(s, realm, cluster);
    }
  }

  lemma SyncWriteMidway(s0: Hub, s: Hub, a: Action, realm: Key, strategy: Key, placement: Key)
    requires realm in s0.realms && strategy in s0.strategies && placement in s0.placements
    requires Midway(s0, s, placement) && ClientsHaveRealms(s0) && WellNamed(s0)
    requires SyncWrite(s0, a, realm, strategy, placement) && PlacementMay(s, a.p)
    ensures Midway(s0, PlacementWrites(s, a.p), placement)
  {
    var t, decisions := PlacementWrites(s, a.p), s0.placements[placement].decisions;
    PlacementKeepsSetUp(s, a.p);
    forall r | r in s0.realms && NoneReturns(s0, r, decisions) ensures NoneReturns(t, r, decisions) {
      if !s0.realms[r].deleting {
        forall c | c in decisions ensures ClientNotDeleting(t, r, c) {
          DecidedNotDeleted(s0, a, realm, strategy, placement, r, c);
          OthersNotDeleting(s, a.p, r, c);
        }
      }
    }
  }

  /** Every prefix of a sync keeps the invariant. */
  lemma {:induction false} SyncKeeps(s0: Hub, s: Hub, run: seq<Action>, realm: Key, strategy: Key, placement: Key)
    requires realm in s0.realms && strategy in s0.strategies && placement in s0.placements
    requires WellNamed(s0) && ClientsHaveRealms(s0) && SyncPresumed(s0, realm, strategy, placement)
    requires Inv(s) && Midway(s0, s, placement)
    requires Legal(s, run) && forall a <- run :: SyncWrite(s0, a, realm, strategy, placement)
    ensures PresumedThroughout(s, run)
    ensures Inv(Run(s, run)) && Midway(s0, Run(s, run), placement)
    decreases |run|
  {
    if run != [] {
      var a := run[0];
      SyncWritePresumed(s0, s, a, realm, strategy, placement);
      SyncWriteMidway(s0, s, a, realm, strategy, placement);
      PlacementKeeps(s, a.p);
      SyncKeeps(s0, Apply(s, a), run[1..], realm, strategy, placement);
    }
  }
}
