/** Exactly when a write of the placement controller keeps the invariant of the hub, and runs of the
    controllers that end with an orphan. */
module HubLimits {
  import opened Kube
  import opened Names
  import opened Hub
  import opened HubInvariant

  /** No ClusterOAuth stands on the DexClient. */
  predicate Unused(s: Hub, client: Key) {
    forall k :: k in s.oauths && s.oauths[k].realm in s.realms ==>
        DexClientKey(s, s.oauths[k].realm, k.namespace) != client
  }

  predicate Harmless(s: Hub, p: PlacementWrite)
    requires PlacementMay(s, p)
  {
    match p
    case WriteDexClient(realm, strategy, cluster) =>
      DexClientKey(s, realm, cluster) in s.dexClients || s.strategies[strategy].stype == TypeOf(s, cluster)
    case WriteOAuth(realm, strategy, cluster) =>
      s.strategies[strategy].stype == TypeOf(s, cluster) && !s.dexClients[DexClientKey(s, realm, cluster)].deleting
    case DeleteDexClient(key, _, _) => s.dexClients[key].deleting || Unused(s, key)
    case _ => true
  }

  lemma OtherTypeClient(s: Hub, p: PlacementWrite)
    requires p.WriteDexClient? && Inv(s) && PlacementMay(s, p)
    ensures Inv(PlacementWrites(s, p)) <==> Harmless(s, p)
  {
    var t, key := PlacementWrites(s, p), DexClientKey(s, p.realm, p.cluster);
    assert t.dexClients[key] == WantedClient(s, p.realm, p.strategy, p.cluster);
    if key in s.dexClients {
      ClientAtKey(s, p.realm, p.cluster);
      RewrittenClientKeeps(s, p);
    } else if s.strategies[p.strategy].stype == TypeOf(s, p.cluster) {
      WriteDexClientKeeps(s, p);
    } else {
      assert t.dexClients[key].stype != TypeOf(t, t.dexClients[key].cluster);
    }
  }

  lemma RewrittenClientKeeps(s: Hub, p: PlacementWrite)
    requires p.WriteDexClient? && Inv(s) && PlacementMay(s, p) && DexClientKey(s, p.realm, p.cluster) in s.dexClients
    ensures Inv(PlacementWrites(s, p))
  {
    var t := PlacementWrites(s, p);
    PlacementKeepsSetUp(s, p);
    SameSetUpKeeps(s, t);
    RewrittenClient(s, p);
    ClientsStay(s, t);
    OAuthsStay(s, t);
  }

  lemma RewrittenClient(s: Hub, p: PlacementWrite)
    requires p.WriteDexClient? && PlacementMay(s, p) && DexClientKey(s, p.realm, p.cluster) in s.dexClients
    ensures var t := PlacementWrites(s, p); FewerClients(s, t) && LiveClientsStay(s, t) && FewerOAuths(s, t)
  {
  }

  lemma OtherTypeOAuth(s: Hub, p: PlacementWrite)
    requires p.WriteOAuth? && Inv(s) && PlacementMay(s, p)
    ensures Inv(PlacementWrites(s, p)) <==> Harmless(s, p)
  {
    if s.strategies[p.strategy].stype == TypeOf(s, p.cluster) {
      WriteOAuthKeeps(s, p);
    } else {
      var t, key := PlacementWrites(s, p), OAuthKey(p.realm, p.cluster);
      StrategyNameInjective(p.realm.name, s.strategies[p.strategy].stype, p.realm.name, TypeOf(s, p.cluster));
      assert t.oauths[key] == WantedOAuth(s, p.realm, p.strategy, p.cluster);
      assert !Configured(t, key);
    }
  }

  lemma DeletedClientInUse(s: Hub, p: PlacementWrite)
    requires p.DeleteDexClient? && Inv(s) && PlacementMay(s, p)
    ensures Inv(PlacementWrites(s, p)) <==> Harmless(s, p)
  {
    var t := PlacementWrites(s, p);
    PlacementKeepsSetUp(s, p);
    SameSetUpKeeps(s, t);
    DeletedClientOnly(s, p);
    ClientsStay(s, t);
    if Harmless(s, p) {
      HarmlessDeletion(s, p);
    } else {
      InUse(s, p.key, p);
    }
  }

  lemma HarmlessDeletion(s: Hub, p: PlacementWrite)
    requires p.DeleteDexClient? && NoOrphans(s) && PlacementMay(s, p) && Harmless(s, p)
    ensures NoOrphans(PlacementWrites(s, p))
  {
    var t := PlacementWrites(s, p);
    forall k | k in t.oauths ensures Configured(t, k) {
      assert Configured(s, k);
    }
  }

  /** Deleting a live DexClient that is used leaves an orphan. */
  lemma InUse(s: Hub, client: Key, p: PlacementWrite)
    requires p.DeleteDexClient? && p.key == client && PlacementMay(s, p)
    requires !s.dexClients[client].deleting && !Unused(s, client)
    ensures !NoOrphans(PlacementWrites(s, p))
  {
    var t := PlacementWrites(s, p);
    var k :| k in s.oauths && s.oauths[k].realm in s.realms &&
        DexClientKey(s, s.oauths[k].realm, k.namespace) == client;
    assert client !in t.dexClients || t.dexClients[client].deleting;
    assert !Configured(t, k);
  }

  /** A write of the placement controller keeps the invariant exactly when it is harmless. */
  lemma KeepsExactlyWhenHarmless(s: Hub, p: PlacementWrite)
    requires Inv(s) && PlacementMay(s, p)
    ensures Inv(PlacementWrites(s, p)) <==> Harmless(s, p)
  {
    match p
    case WriteDexClient(_, _, _) => OtherTypeClient(s, p);
    case WriteOAuth(_, _, _) => OtherTypeOAuth(s, p);
    case DeleteDexClient(_, _, _) => DeletedClientInUse(s, p);
    case _ => TouchingKeeps(s, p);
  }

  // ----- every run -----

  ghost predicate InvThroughout(s: Hub, run: seq<Action>)
    requires Legal(s, run)
    decreases |run|
  {
    Inv(s) && (run == [] || InvThroughout(Apply(s, run[0]), run[1..]))
  }

  /** Every write of the placement controller is harmless when it is made. */
  ghost predicate HarmlessThroughout(s: Hub, run: seq<Action>)
    requires Legal(s, run)
    decreases |run|
  {
    run == [] || ((run[0].ByPlacement? ==> Harmless(s, run[0].p)) && HarmlessThroughout(Apply(s, run[0]), run[1..]))
  }

  /** A run of all controllers and the environment keeps the invariant in every state exactly when
      each write of the placement controller is harmless. */
  lemma {:induction false} RunKeepsExactlyWhenHarmless(s: Hub, run: seq<Action>)
    requires Inv(s) && Legal(s, run)
    ensures InvThroughout(s, run) <==> HarmlessThroughout(s, run)
    decreases |run|
  {
    if run != [] {
      var t := Apply(s, run[0]);
      StepKeepsExactlyWhenHarmless(s, run[0]);
      if Inv(t) {
        RunKeepsExactlyWhenHarmless(t, run[1..]);
      }
    }
  }

  lemma StepKeepsExactlyWhenHarmless(s: Hub, a: Action)
    requires Inv(s) && Enabled(s, a)
    ensures Inv(Apply(s, a)) <==> (a.ByPlacement? ==> Harmless(s, a.p))
  {
    if a.ByPlacement? {
      KeepsExactlyWhenHarmless(s, a.p);
    } else {
      ActionKeeps(s, a);
    }
  }

  /** The invariant holds before anything is set up. */
  lemma HoldsAtFirst(s: Hub)
    requires WellNamed(s) && s.strategies == map[] && s.dexClients == map[] && s.oauths == map[] &&
        s.dexServers == map[]
    requires s.namespaces.Keys <= {OPERATOR_NAMESPACE}
    ensures Inv(s)
  {
  }

  // ----- how orphans come about -----

  /** A placement that lists none of the strategies of a configured cluster among its owners may
      delete the live DexClient of that cluster, and leaves an orphan. */
  lemma OwnersNotListed(s: Hub, client: Key, owners: seq<string>)
    requires Inv(s) && client in s.dexClients && !s.dexClients[client].deleting && !Unused(s, client)
    requires NoOAuthOwned(s, s.dexClients[client].cluster, owners)
    ensures var p := DeleteDexClient(client, s.dexClients[client].stype, owners);
            PlacementMay(s, p) && !NoOrphans(PlacementWrites(s, p))
  {
    InUse(s, client, DeleteDexClient(client, s.dexClients[client].stype, owners));
  }

  function WithoutClient(s: Hub, client: Key): Hub {
    s.(dexClients := s.dexClients - {client})
  }

  /** A cluster that is decided again while its DexClient is still being deleted gets a ClusterOAuth
      that has no DexClient once that deletion completes. */
  lemma ReturnsTooEarly(s: Hub, p: PlacementWrite)
    requires Inv(s) && p.WriteOAuth? && PlacementMay(s, p)
    requires s.dexClients[DexClientKey(s, p.realm, p.cluster)].deleting
    ensures var t := WithoutClient(PlacementWrites(s, p), DexClientKey(s, p.realm, p.cluster));
            && Leads(s, [ByPlacement(p), Environment(t)], t)
            && OAuthKey(p.realm, p.cluster) in t.oauths && DexClientKey(t, p.realm, p.cluster) !in t.dexClients
  {
    var client, u := DexClientKey(s, p.realm, p.cluster), PlacementWrites(s, p);
    OnlyOAuthWritten(s, p);
    CompletedDeletion(u, client);
    LeadsTwo(s, ByPlacement(p), u, Environment(WithoutClient(u, client)));
  }

  lemma LeadsTwo(s: Hub, a: Action, u: Hub, b: Action)
    requires Enabled(s, a) && u == Apply(s, a) && Enabled(u, b)
    ensures Leads(s, [a, b], Apply(u, b))
  {
    LeadsOne(s, a);
    LeadsOne(u, b);
    LeadsThen(s, [a], u, [b], Apply(u, b));
    assert [a] + [b] == [a, b];
  }

  lemma CompletedDeletion(u: Hub, client: Key)
    requires WellNamed(u) && client in u.dexClients && u.dexClients[client].deleting
    ensures EnvironmentStep(u, WithoutClient(u, client))
  {
  }
}
