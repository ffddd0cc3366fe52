/** Syncs come to an end: each pass that waits has issued the deletions of what it waits for, so when these
    complete there is less to wait for next time. */
module BoundedSync {
  import opened Kube
  import opened Hub
  import opened PlacementSync
  import opened PlacementCreate
  import opened PlacementController

  lemma Fewer<T>(a: set<T>, b: set<T>, x: T)
    requires a <= b && x in b && x !in a
    ensures |a| < |b|
  {
    var c := b - {x};
    assert a <= c && b == c + {x};
    NoMore(a, c);
  }

  lemma {:induction false} NoMore<T>(a: set<T>, b: set<T>)
    requires a <= b
    ensures |a| <= |b|
  {
    if a != {} {
      var x :| x in a;
      NoMore(a - {x}, b - {x});
    }
  }

  // ----- a sync that waits for what is obsolete -----

  /** The obsolete DexClients with a ClusterOAuth of the owners in their cluster. */
  ghost function Uncleared(s: Hub, realm: Key, strategy: Key, placement: Key): set<Key>
    requires realm in s.realms && strategy in s.strategies && placement in s.placements
  {
    set k | k in s.dexClients && Obsolete(s, k, realm, strategy, placement) &&
        !NoOAuthOwned(s, s.dexClients[k].cluster, s.placements[placement].owners)
  }

  /** How often a sync may have to wait: once for every such cluster, and once for the DexClients. */
  ghost function Left(s: Hub, realm: Key, strategy: Key, placement: Key): nat
    requires realm in s.realms && strategy in s.strategies && placement in s.placements
  {
    |Uncleared(s, realm, strategy, placement)| + if NoneObsolete(s, realm, strategy, placement) then 0 else 1
  }

  /** One sync of a pass, however it ends. */
  ghost predicate SyncPass(s: Hub, u: Hub, realm: Key, strategy: Key, placement: Key, outcome: Outcome)
    requires realm in s.realms && strategy in s.strategies && placement in s.placements
  {
    && OnlyConfigs(s, u) && FewerObsolete(s, u, realm, strategy, placement)
    && exists writes: nat :: SyncEnd(u, writes, outcome, realm, strategy, placement)
  }

  /** What everybody else does until the next pass: the deletions that were issued complete, and nothing
      obsolete comes back. */
  ghost predicate Completed(u: Hub, t: Hub, realm: Key, strategy: Key, placement: Key)
    requires realm in u.realms && strategy in u.strategies && placement in u.placements
  {
    && SameObsolete(u, t, realm, strategy, placement)
    && forall k :: k in t.dexClients && Obsolete(t, k, realm, strategy, placement) ==>
         && k in u.dexClients && Obsolete(u, k, realm, strategy, placement) && !u.dexClients[k].deleting
         && t.dexClients[k].cluster == u.dexClients[k].cluster
         && OwnedCompleted(u, t, t.dexClients[k].cluster, u.placements[placement].owners)
  }

  /** What is obsolete, and who owns what, is decided as before. */
  ghost predicate SameObsolete(u: Hub, t: Hub, realm: Key, strategy: Key, placement: Key)
    requires realm in u.realms && strategy in u.strategies && placement in u.placements
  {
    && realm in t.realms && strategy in t.strategies && placement in t.placements
    && t.realms[realm].subDomain == u.realms[realm].subDomain && t.realms[realm].deleting == u.realms[realm].deleting
    && t.strategies[strategy].stype == u.strategies[strategy].stype
    && t.placements[placement].decisions == u.placements[placement].decisions
    && t.placements[placement].owners == u.placements[placement].owners
  }

  ghost predicate OwnedCompleted(u: Hub, t: Hub, cluster: string, owners: seq<string>) {
    forall k :: k in t.oauths && Owned(t, k, cluster, owners) ==>
      k in u.oauths && Owned(u, k, cluster, owners) && !u.oauths[k].deleting
  }

  lemma OwnedStays(s: Hub, t: Hub, cluster: string, owners: seq<string>)
    requires OwnedFewer(s, t, cluster, owners) && !NoOAuthOwned(t, cluster, owners)
    ensures !NoOAuthOwned(s, cluster, owners)
  {
    var k :| k in t.oauths && Owned(t, k, cluster, owners);
    assert k in s.oauths && Owned(s, k, cluster, owners);
  }

  lemma PassLeavesFewer(s: Hub, u: Hub, realm: Key, strategy: Key, placement: Key, outcome: Outcome)
    requires realm in s.realms && strategy in s.strategies && placement in s.placements
    requires SyncPass(s, u, realm, strategy, placement, outcome)
    ensures Uncleared(u, realm, strategy, placement) <= Uncleared(s, realm, strategy, placement)
    ensures NoneObsolete(s, realm, strategy, placement) ==> NoneObsolete(u, realm, strategy, placement)
  {
    forall k | k in Uncleared(u, realm, strategy, placement) ensures k in Uncleared(s, realm, strategy, placement) {
      OwnedStays(s, u, u.dexClients[k].cluster, s.placements[placement].owners);
    }
  }

  lemma CompletionLeavesFewer(u: Hub, t: Hub, realm: Key, strategy: Key, placement: Key)
    requires realm in u.realms && strategy in u.strategies && placement in u.placements
    requires Completed(u, t, realm, strategy, placement)
    ensures Uncleared(t, realm, strategy, placement) <= Uncleared(u, realm, strategy, placement)
    ensures NoneObsolete(u, realm, strategy, placement) ==> NoneObsolete(t, realm, strategy, placement)
  {
    forall k | k in Uncleared(t, realm, strategy, placement) ensures k in Uncleared(u, realm, strategy, placement) {
      OwnedStays(u, t, t.dexClients[k].cluster, u.placements[placement].owners);
    }
  }

  /** A cluster whose ClusterOAuths were all being deleted is clear. */
  lemma ClearedThere(u: Hub, t: Hub, k: Key, realm: Key, strategy: Key, placement: Key)
    requires realm in u.realms && strategy in u.strategies && placement in u.placements
    requires Completed(u, t, realm, strategy, placement)
    requires k in u.dexClients && ClusterWaits(u, k, realm, strategy, placement)
    ensures k in Uncleared(u, realm, strategy, placement) && k !in Uncleared(t, realm, strategy, placement)
  {
  }

  /** What a pass that waits is waiting for is gone once the deletions have completed. */
  lemma WaitingMakesProgress(s: Hub, u: Hub, t: Hub, realm: Key, strategy: Key, placement: Key)
    requires realm in s.realms && strategy in s.strategies && placement in s.placements
    requires SyncPass(s, u, realm, strategy, placement, Requeue) && Completed(u, t, realm, strategy, placement)
    ensures Left(t, realm, strategy, placement) < Left(s, realm, strategy, placement)
  {
    PassLeavesFewer(s, u, realm, strategy, placement, Requeue);
    CompletionLeavesFewer(u, t, realm, strategy, placement);
    var before, after := Uncleared(s, realm, strategy, placement), Uncleared(t, realm, strategy, placement);
    if k :| k in u.dexClients && ClusterWaits(u, k, realm, strategy, placement) {
      ClearedThere(u, t, k, realm, strategy, placement);
      Fewer(after, before, k);
    } else {
      NoMore(after, before);
      assert NoneObsolete(t, realm, strategy, placement);
    }
  }

  lemma PassLosesNothing(s: Hub, u: Hub, t: Hub, realm: Key, strategy: Key, placement: Key, outcome: Outcome)
    requires realm in s.realms && strategy in s.strategies && placement in s.placements
    requires SyncPass(s, u, realm, strategy, placement, outcome) && Completed(u, t, realm, strategy, placement)
    ensures Left(t, realm, strategy, placement) <= Left(s, realm, strategy, placement)
  {
    PassLeavesFewer(s, u, realm, strategy, placement, outcome);
    CompletionLeavesFewer(u, t, realm, strategy, placement);
    NoMore(Uncleared(t, realm, strategy, placement), Uncleared(s, realm, strategy, placement));
  }

  /** One sync, and the hub when the next one begins. */
  datatype Round = Round(outcome: Outcome, after: Hub, next: Hub)

  ghost predicate Rounds(s: Hub, realm: Key, strategy: Key, placement: Key, rounds: seq<Round>)
    requires realm in s.realms && strategy in s.strategies && placement in s.placements
    decreases |rounds|
  {
    rounds == [] ||
    (SyncPass(s, rounds[0].after, realm, strategy, placement, rounds[0].outcome) &&
        Completed(rounds[0].after, rounds[0].next, realm, strategy, placement) &&
        Rounds(rounds[0].next, realm, strategy, placement, rounds[1..]))
  }

  function Waits(rounds: seq<Round>): nat {
    if rounds == [] then 0 else (if rounds[0].outcome.Requeue? then 1 else 0) + Waits(rounds[1..])
  }

  function End(s: Hub, rounds: seq<Round>): Hub {
    if rounds == [] then s else rounds[|rounds| - 1].next
  }

  /** Syncs of one strategy wait no more often than there are obsolete clusters to clear, and once more for
      their DexClients; passes that fail do not count. */
  lemma {:induction false} SyncIsBounded(s: Hub, realm: Key, strategy: Key, placement: Key, rounds: seq<Round>)
    requires realm in s.realms && strategy in s.strategies && placement in s.placements
    requires Rounds(s, realm, strategy, placement, rounds)
    ensures var t := End(s, rounds);
            && realm in t.realms && strategy in t.strategies && placement in t.placements
            && Waits(rounds) + Left(t, realm, strategy, placement) <= Left(s, realm, strategy, placement)
    decreases |rounds|
  {
    if rounds != [] {
      var u, t := rounds[0].after, rounds[0].next;
      SyncIsBounded(t, realm, strategy, placement, rounds[1..]);
      assert End(t, rounds[1..]) == End(s, rounds);
      if rounds[0].outcome.Requeue? {
        WaitingMakesProgress(s, u, t, realm, strategy, placement);
      } else {
        PassLosesNothing(s, u, t, realm, strategy, placement, rounds[0].outcome);
      }
    }
  }

  /** After that many waits a sync that does not fail ends with Done, with the realm in step. */
  lemma ThenInStep(s: Hub, realm: Key, strategy: Key, placement: Key, rounds: seq<Round>, after: Hub, outcome: Outcome)
    requires realm in s.realms && strategy in s.strategies && placement in s.placements
    requires Rounds(s, realm, strategy, placement, rounds)
    requires Waits(rounds) >= Left(s, realm, strategy, placement)
    requires var t := End(s, rounds);
             realm in t.realms && strategy in t.strategies && placement in t.placements &&
             SyncPass(t, after, realm, strategy, placement, outcome)
    ensures !outcome.Failed? ==> outcome.Done? && InStep(after, realm, strategy, placement)
  {
    SyncIsBounded(s, realm, strategy, placement, rounds);
    PassLeavesFewer(End(s, rounds), after, realm, strategy, placement, outcome);
  }

  // ----- a placement in deletion -----

  /** The decided clusters that still have a ClusterOAuth of the owners. */
  ghost function DecidedLeft(s: Hub, clusters: seq<string>, owners: seq<string>): set<string> {
    set c | c in clusters && !NoOAuthOwned(s, c, owners)
  }

  /** A pass that waits for a placement in deletion has one cluster less to clear next time. */
  lemma ReleaseMakesProgress(s: Hub, u: Hub, t: Hub, clusters: seq<string>, owners: seq<string>)
    requires ConfigsWent(s, u) && WaitsForOne(u, clusters, owners)
    requires forall c <- clusters :: OwnedCompleted(u, t, c, owners)
    ensures |DecidedLeft(t, clusters, owners)| < |DecidedLeft(s, clusters, owners)|
  {
    var c :| c in clusters && !NoOAuthOwned(u, c, owners) && OwnedMarked(u, c, owners);
    forall x | x in DecidedLeft(t, clusters, owners) ensures x in DecidedLeft(s, clusters, owners) && x != c {
      OwnedStays(u, t, x, owners);
      OwnedStays(s, u, x, owners);
      var o :| o in t.oauths && Owned(t, o, x, owners);
      assert o in u.oauths && Owned(u, o, x, owners) && !u.oauths[o].deleting;
    }
    OwnedStays(s, u, c, owners);
    Fewer(DecidedLeft(t, clusters, owners), DecidedLeft(s, clusters, owners), c);
  }

  /** Passes for a placement in deletion that wait, each with the hub when the next one begins. */
  ghost predicate ReleaseRounds(s: Hub, clusters: seq<string>, owners: seq<string>, rounds: seq<Round>)
    decreases |rounds|
  {
    rounds == [] ||
    (ConfigsWent(s, rounds[0].after) && WaitsForOne(rounds[0].after, clusters, owners) &&
        (forall c <- clusters :: OwnedCompleted(rounds[0].after, rounds[0].next, c, owners)) &&
        ReleaseRounds(rounds[0].next, clusters, owners, rounds[1..]))
  }

  /** A placement in deletion is waited for no more often than it has decided clusters to clear. */
  lemma {:induction false} ReleaseIsBounded(s: Hub, clusters: seq<string>, owners: seq<string>, rounds: seq<Round>)
    requires ReleaseRounds(s, clusters, owners, rounds)
    ensures |rounds| + |DecidedLeft(End(s, rounds), clusters, owners)| <= |DecidedLeft(s, clusters, owners)|
    decreases |rounds|
  {
    if rounds != [] {
      ReleaseIsBounded(rounds[0].next, clusters, owners, rounds[1..]);
      assert End(rounds[0].next, rounds[1..]) == End(s, rounds);
      ReleaseMakesProgress(s, rounds[0].after, rounds[0].next, clusters, owners);
    }
  }
}
