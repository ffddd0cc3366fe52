/** What every reachable state of the hub satisfies: no configuration without its DexClient, and
    nothing left that refers to an AuthRealm that is gone. */
module HubInvariant {
  import opened Kube
  import opened Names
  import opened Hub

  ghost predicate Held(s: Hub, realm: Key) {
    realm in s.realms && s.realms[realm].finalizer
  }

  ghost predicate StrategiesHaveRealms(s: Hub) {
    forall k :: k in s.strategies ==>
      var st := s.strategies[k];
      && st.stype in {Backplane, Hypershift}
      && Held(s, Key(k.namespace, st.realm))
      && k.name == StrategyName(st.realm, st.stype)
  }

  /** A DexClient lives in the Dex namespace of its realm, under the name of its cluster. */
  ghost predicate ClientOf(s: Hub, k: Key, realm: Key)
    requires k in s.dexClients
  {
    Held(s, realm) && k == DexClientKey(s, realm, s.dexClients[k].cluster)
  }

  ghost predicate ClientsHaveRealms(s: Hub) {
    forall k :: k in s.dexClients ==>
      s.dexClients[k].stype == TypeOf(s, s.dexClients[k].cluster) && exists realm :: ClientOf(s, k, realm)
  }

  ghost predicate WellNamedClients(s: Hub) {
    WellNamed(s) && ClientsHaveRealms(s)
  }

  /** No orphan: a ClusterOAuth of (realm, cluster) has the DexClient of (realm, cluster), labelled
      with the cluster and not on its way out. */
  ghost predicate Configured(s: Hub, k: Key)
    requires k in s.oauths
  {
    var c := s.oauths[k];
    && Held(s, c.realm)
    && k == OAuthKey(c.realm, k.namespace)
    && c.strategy == StrategyKey(c.realm, TypeOf(s, k.namespace))
    && var client := DexClientKey(s, c.realm, k.namespace);
       client in s.dexClients && s.dexClients[client].cluster == k.namespace && !s.dexClients[client].deleting
  }

  ghost predicate NoOrphans(s: Hub) {
    forall k :: k in s.oauths ==> Configured(s, k)
  }

  ghost predicate DexNamespaceOf(s: Hub, ns: string, realm: Key) {
    Held(s, realm) && ns == DexNamespace(s, realm)
  }

  ghost predicate ServersHaveRealms(s: Hub) {
    && (forall k :: k in s.dexServers ==> exists realm :: DexNamespaceOf(s, k.namespace, realm))
    && (forall ns :: ns in s.namespaces && ns != OPERATOR_NAMESPACE ==> exists realm :: DexNamespaceOf(s, ns, realm))
  }

  ghost predicate Inv(s: Hub) {
    WellNamed(s) && StrategiesHaveRealms(s) && ClientsHaveRealms(s) && NoOrphans(s) && ServersHaveRealms(s)
  }

  /** What the no-orphan promise takes for granted about a write: clusters are configured through the
      strategy of their type; a placement lists the strategies that refer to it among its owners; a
      cluster does not come back while its DexClient is still being deleted. */
  predicate PresumedOfPlacement(s: Hub, p: PlacementWrite)
    requires PlacementMay(s, p)
  {
    match p
    case WriteDexClient(_, strategy, cluster) => s.strategies[strategy].stype == TypeOf(s, cluster)
    case WriteOAuth(realm, strategy, cluster) =>
      && s.strategies[strategy].stype == TypeOf(s, cluster)
      && !s.dexClients[DexClientKey(s, realm, cluster)].deleting
    case DeleteDexClient(key, stype, owners) =>
      forall realm :: realm in s.realms && DexNamespace(s, realm) == key.namespace ==>
          StrategyName(realm.name, stype) in owners
    case _ => true
  }

  ghost predicate Presumed(s: Hub, a: Action)
    requires Enabled(s, a)
  {
    a.ByPlacement? ==> PresumedOfPlacement(s, a.p)
  }

  // ----- writes that add nothing and release no realm -----

  ghost predicate RealmsStay(s: Hub, t: Hub) {
    t.hosted == s.hosted && forall r :: Held(s, r) ==> Held(t, r) && t.realms[r].subDomain == s.realms[r].subDomain
  }

  ghost predicate FewerStrategies(s: Hub, t: Hub) {
    forall k :: k in t.strategies ==>
      k in s.strategies && t.strategies[k].stype == s.strategies[k].stype &&
          t.strategies[k].realm == s.strategies[k].realm
  }

  ghost predicate FewerClients(s: Hub, t: Hub) {
    forall k :: k in t.dexClients ==>
      k in s.dexClients && t.dexClients[k].cluster == s.dexClients[k].cluster &&
          t.dexClients[k].stype == s.dexClients[k].stype
  }

  ghost predicate LiveClientsStay(s: Hub, t: Hub) {
    forall k :: k in s.dexClients && !s.dexClients[k].deleting ==>
      k in t.dexClients && t.dexClients[k].cluster == s.dexClients[k].cluster && !t.dexClients[k].deleting
  }

  ghost predicate FewerOAuths(s: Hub, t: Hub) {
    forall k :: k in t.oauths ==>
      k in s.oauths && t.oauths[k].realm == s.oauths[k].realm && t.oauths[k].strategy == s.oauths[k].strategy
  }

  ghost predicate FewerServers(s: Hub, t: Hub) {
    t.dexServers.Keys <= s.dexServers.Keys && t.namespaces.Keys <= s.namespaces.Keys + {OPERATOR_NAMESPACE}
  }

  lemma StrategiesStay(s: Hub, t: Hub)
    requires StrategiesHaveRealms(s) && RealmsStay(s, t) && FewerStrategies(s, t)
    ensures StrategiesHaveRealms(t)
  {
    forall k | k in t.strategies ensures Held(t, Key(k.namespace, t.strategies[k].realm)) {
      assert Held(s, Key(k.namespace, s.strategies[k].realm));
    }
  }

  lemma ClientsStay(s: Hub, t: Hub)
    requires ClientsHaveRealms(s) && RealmsStay(s, t) && FewerClients(s, t)
    ensures ClientsHaveRealms(t)
  {
    forall k | k in t.dexClients ensures exists realm :: ClientOf(t, k, realm) {
      var realm :| ClientOf(s, k, realm);
      assert ClientOf(t, k, realm);
    }
  }

  lemma OAuthsStay(s: Hub, t: Hub)
    requires NoOrphans(s) && RealmsStay(s, t) && LiveClientsStay(s, t) && FewerOAuths(s, t)
    ensures NoOrphans(t)
  {
    forall k | k in t.oauths ensures Configured(t, k) {
      assert Configured(s, k);
    }
  }

  lemma ServersStay(s: Hub, t: Hub)
    requires ServersHaveRealms(s) && RealmsStay(s, t) && FewerServers(s, t)
    ensures ServersHaveRealms(t)
  {
    forall k | k in t.dexServers ensures exists realm :: DexNamespaceOf(t, k.namespace, realm) {
      var realm :| DexNamespaceOf(s, k.namespace, realm);
      assert DexNamespaceOf(t, k.namespace, realm);
    }
    forall ns | ns in t.namespaces && ns != OPERATOR_NAMESPACE ensures exists realm :: DexNamespaceOf(t, ns, realm) {
      var realm :| DexNamespaceOf(s, ns, realm);
      assert DexNamespaceOf(t, ns, realm);
    }
  }

  ghost predicate AddsNothing(s: Hub, t: Hub) {
    && WellNamed(t) && RealmsStay(s, t)
    && FewerStrategies(s, t) && FewerClients(s, t) && LiveClientsStay(s, t) && FewerOAuths(s, t) && FewerServers(s, t)
  }

  lemma AddsNothingKeeps(s: Hub, t: Hub)
    requires Inv(s) && AddsNothing(s, t)
    ensures Inv(t)
  {
    StrategiesStay(s, t);
    ClientsStay(s, t);
    OAuthsStay(s, t);
    ServersStay(s, t);
  }

  /** Realms, strategies, Dex servers and namespaces are as before. */
  ghost predicate SameSetUp(s: Hub, t: Hub) {
    && t.realms == s.realms && t.strategies == s.strategies && t.hosted == s.hosted
    && t.dexServers == s.dexServers && t.namespaces == s.namespaces
  }

  lemma SameSetUpKeeps(s: Hub, t: Hub)
    requires SameSetUp(s, t) && WellNamed(s) && StrategiesHaveRealms(s) && ServersHaveRealms(s)
    ensures WellNamed(t) && StrategiesHaveRealms(t) && ServersHaveRealms(t) && RealmsStay(s, t)
  {
    assert forall r :: Held(t, r) <==> Held(s, r);
    StrategiesStay(s, t);
    ServersStay(s, t);
  }

  lemma PlacementKeepsSetUp(s: Hub, p: PlacementWrite)
    requires PlacementMay(s, p)
    ensures SameSetUp(s, PlacementWrites(s, p))
  {
  }

  predicate OnlyTouches(p: PlacementWrite) {
    !p.WriteDexClient? && !p.WriteOAuth? && !p.DeleteDexClient?
  }

  lemma TouchingKeeps(s: Hub, p: PlacementWrite)
    requires Inv(s) && PlacementMay(s, p) && OnlyTouches(p)
    ensures Inv(PlacementWrites(s, p))
  {
    var t := PlacementWrites(s, p);
    PlacementKeepsSetUp(s, p);
    SameSetUpKeeps(s, t);
    TouchedConfigs(s, p);
    ClientsStay(s, t);
    OAuthsStay(s, t);
  }

  lemma TouchedConfigs(s: Hub, p: PlacementWrite)
    requires PlacementMay(s, p) && OnlyTouches(p)
    ensures FewerClients(s, PlacementWrites(s, p)) && LiveClientsStay(s, PlacementWrites(s, p)) &&
        FewerOAuths(s, PlacementWrites(s, p))
  {
  }

  predicate OnlyDeletes(r: RealmWrite) {
    !r.CreateDexNamespace? && !r.CreateDexServer? && !r.CreateStrategy? && !r.ReleaseRealm?
  }

  lemma DeletingKeepsRealms(s: Hub, r: RealmWrite)
    requires WellNamed(s) && RealmMay(s, r) && OnlyDeletes(r)
    ensures WellNamed(RealmWrites(s, r)) && RealmsStay(s, RealmWrites(s, r))
  {
  }

  lemma DeletingAddsNothing(s: Hub, r: RealmWrite)
    requires WellNamed(s) && RealmMay(s, r) && OnlyDeletes(r)
    ensures AddsNothing(s, RealmWrites(s, r))
  {
    DeletingKeepsRealms(s, r);
    assert RealmWrites(s, r).dexClients == s.dexClients && RealmWrites(s, r).oauths == s.oauths;
  }

  lemma OAuthWritesAddNothing(s: Hub, o: OAuthWrite)
    requires WellNamed(s) && OAuthMay(s, o)
    ensures AddsNothing(s, OAuthWrites(s, o))
  {
  }

  lemma EnvironmentAddsNothing(s: Hub, t: Hub)
    requires EnvironmentStep(s, t)
    ensures AddsNothing(s, t)
  {
  }

  // ----- the writes of the placement controller -----

  lemma SameDexNamespace(s: Hub, a: Key, b: Key)
    requires WellNamed(s) && a in s.realms && b in s.realms && DexNamespace(s, a) == DexNamespace(s, b)
    ensures a == b
  {
    DexServerNamespaceInjective(s.realms[a].subDomain, s.realms[b].subDomain);
  }

  /** The object at the key of (realm, cluster) is the DexClient of that cluster. */
  lemma ClientAtKey(s: Hub, realm: Key, cluster: string)
    requires WellNamed(s) && ClientsHaveRealms(s) && realm in s.realms &&
        DexClientKey(s, realm, cluster) in s.dexClients
    ensures s.dexClients[DexClientKey(s, realm, cluster)].cluster == cluster
  {
    var key := DexClientKey(s, realm, cluster);
    var r :| ClientOf(s, key, r);
    SameDexNamespace(s, r, realm);
    DexClientNameInjective(realm.name, s.dexClients[key].cluster, cluster);
  }

  lemma OnlyDexClientWritten(s: Hub, p: PlacementWrite)
    requires p.WriteDexClient? && PlacementMay(s, p)
    ensures var t, key := PlacementWrites(s, p), DexClientKey(s, p.realm, p.cluster);
            && t == s.(dexClients := t.dexClients) && key in t.dexClients
            && (if key in s.dexClients then
                  && t.dexClients[key].cluster == s.dexClients[key].cluster
                  && t.dexClients[key].stype == s.dexClients[key].stype
                  && t.dexClients[key].deleting == s.dexClients[key].deleting
                else
                  && t.dexClients[key].cluster == p.cluster
                  && t.dexClients[key].stype == s.strategies[p.strategy].stype)
            && forall k :: k != key ==>
                (k in t.dexClients <==> k in s.dexClients) && (k in s.dexClients ==> t.dexClients[k] == s.dexClients[k])
  {
  }

  lemma WriteDexClientHasRealm(s: Hub, p: PlacementWrite)
    requires p.WriteDexClient? && WellNamed(s) && StrategiesHaveRealms(s) && ClientsHaveRealms(s)
    requires PlacementMay(s, p) && PresumedOfPlacement(s, p)
    ensures ClientsHaveRealms(PlacementWrites(s, p)) && LiveClientsStay(s, PlacementWrites(s, p))
  {
    var t, key := PlacementWrites(s, p), DexClientKey(s, p.realm, p.cluster);
    assert Held(s, Key(p.strategy.namespace, s.strategies[p.strategy].realm));
    OnlyDexClientWritten(s, p);
    if key in s.dexClients {
      ClientAtKey(s, p.realm, p.cluster);
    }
    assert ClientOf(t, key, p.realm);
    OtherClientsHaveRealms(s, t, key);
  }

  lemma OtherClientsHaveRealms(s: Hub, t: Hub, key: Key)
    requires ClientsHaveRealms(s) && t == s.(dexClients := t.dexClients)
    requires forall k :: k in t.dexClients && k != key ==> k in s.dexClients && t.dexClients[k] == s.dexClients[k]
    ensures forall k :: k in t.dexClients && k != key ==>
              t.dexClients[k].stype == TypeOf(t, t.dexClients[k].cluster) && exists r :: ClientOf(t, k, r)
  {
    forall k | k in t.dexClients && k != key ensures exists r :: ClientOf(t, k, r) {
      var r :| ClientOf(s, k, r);
      assert ClientOf(t, k, r);
    }
  }

  lemma WriteDexClientKeeps(s: Hub, p: PlacementWrite)
    requires p.WriteDexClient? && Inv(s) && PlacementMay(s, p) && PresumedOfPlacement(s, p)
    ensures Inv(PlacementWrites(s, p))
  {
    var t := PlacementWrites(s, p);
    PlacementKeepsSetUp(s, p);
    SameSetUpKeeps(s, t);
    WriteDexClientHasRealm(s, p);
    OAuthsStay(s, t);
  }

  /** Writing a ClusterOAuth through the strategy of the cluster's type keeps the invariant exactly
      when its DexClient is not being deleted. */
  lemma WriteOAuthKeeps(s: Hub, p: PlacementWrite)
    requires p.WriteOAuth? && Inv(s) && PlacementMay(s, p) && s.strategies[p.strategy].stype == TypeOf(s, p.cluster)
    ensures Inv(PlacementWrites(s, p)) <==> !s.dexClients[DexClientKey(s, p.realm, p.cluster)].deleting
  {
    var t := PlacementWrites(s, p);
    PlacementKeepsSetUp(s, p);
    SameSetUpKeeps(s, t);
    ClientsStay(s, t);
    WriteOAuthConfigures(s, p);
  }

  lemma WriteOAuthConfigures(s: Hub, p: PlacementWrite)
    requires p.WriteOAuth? && PlacementMay(s, p) && s.strategies[p.strategy].stype == TypeOf(s, p.cluster)
    requires WellNamed(s) && StrategiesHaveRealms(s) && ClientsHaveRealms(s) && NoOrphans(s)
    ensures NoOrphans(PlacementWrites(s, p)) <==> !s.dexClients[DexClientKey(s, p.realm, p.cluster)].deleting
  {
    var t, key := PlacementWrites(s, p), OAuthKey(p.realm, p.cluster);
    OnlyOAuthWritten(s, p);
    WrittenConfigured(s, t, p);
    OthersConfigured(s, t, key);
  }

  lemma WrittenConfigured(s: Hub, t: Hub, p: PlacementWrite)
    requires p.WriteOAuth? && PlacementMay(s, p) && s.strategies[p.strategy].stype == TypeOf(s, p.cluster)
    requires WellNamed(s) && StrategiesHaveRealms(s) && ClientsHaveRealms(s) && t == s.(oauths := t.oauths)
    requires OAuthKey(p.realm, p.cluster) in t.oauths
    requires t.oauths[OAuthKey(p.realm, p.cluster)].realm == p.realm &&
        t.oauths[OAuthKey(p.realm, p.cluster)].strategy == p.strategy
    ensures Configured(t, OAuthKey(p.realm, p.cluster)) <==> !s.dexClients[DexClientKey(s, p.realm, p.cluster)].deleting
  {
    assert Held(s, Key(p.strategy.namespace, s.strategies[p.strategy].realm));
    ClientAtKey(s, p.realm, p.cluster);
  }

  lemma OthersConfigured(s: Hub, t: Hub, key: Key)
    requires NoOrphans(s) && t == s.(oauths := t.oauths)
    requires forall k :: k in t.oauths && k != key ==> k in s.oauths && t.oauths[k] == s.oauths[k]
    ensures forall k :: k in t.oauths && k != key ==> Configured(t, k)
  {
    forall k | k in t.oauths && k != key ensures Configured(t, k) {
      assert Configured(s, k);
    }
  }

  lemma OnlyOAuthWritten(s: Hub, p: PlacementWrite)
    requires p.WriteOAuth? && PlacementMay(s, p)
    ensures var t, key := PlacementWrites(s, p), OAuthKey(p.realm, p.cluster);
            && t == s.(oauths := t.oauths) && key in t.oauths
            && t.oauths[key].realm == p.realm && t.oauths[key].strategy == p.strategy
            && forall k :: k != key ==>
                (k in t.oauths <==> k in s.oauths) && (k in s.oauths ==> t.oauths[k] == s.oauths[k])
  {
  }

  lemma DeleteDexClientLeavesNoOrphan(s: Hub, p: PlacementWrite)
    requires p.DeleteDexClient? && NoOrphans(s) && PlacementMay(s, p) && PresumedOfPlacement(s, p)
    requires forall k :: k in s.dexClients ==> s.dexClients[k].stype == TypeOf(s, s.dexClients[k].cluster)
    ensures NoOrphans(PlacementWrites(s, p))
  {
    var t := PlacementWrites(s, p);
    forall k | k in t.oauths ensures Configured(t, k) {
      assert Configured(s, k);
      var realm := s.oauths[k].realm;
      assert DexNamespace(s, realm) == p.key.namespace ==> StrategyName(realm.name, p.stype) in p.owners;
    }
  }

  lemma DeletedClientOnly(s: Hub, p: PlacementWrite)
    requires p.DeleteDexClient? && PlacementMay(s, p)
    ensures FewerClients(s, PlacementWrites(s, p))
  {
  }

  lemma DeleteDexClientKeeps(s: Hub, p: PlacementWrite)
    requires p.DeleteDexClient? && Inv(s) && PlacementMay(s, p) && PresumedOfPlacement(s, p)
    ensures Inv(PlacementWrites(s, p))
  {
    var t := PlacementWrites(s, p);
    PlacementKeepsSetUp(s, p);
    SameSetUpKeeps(s, t);
    DeletedClientOnly(s, p);
    ClientsStay(s, t);
    DeleteDexClientLeavesNoOrphan(s, p);
  }

  // ----- the writes of the AuthRealm controller -----

  lemma CreateStrategyHasRealm(s: Hub, r: RealmWrite)
    requires r.CreateStrategy? && StrategiesHaveRealms(s) && RealmMay(s, r)
    ensures StrategiesHaveRealms(RealmWrites(s, r))
  {
    var t := RealmWrites(s, r);
    forall k | k in t.strategies ensures Held(t, Key(k.namespace, t.strategies[k].realm)) {
      if k in s.strategies {
        assert Held(s, Key(k.namespace, s.strategies[k].realm));
      }
    }
  }

  lemma OnlyStrategyCreated(s: Hub, r: RealmWrite)
    requires r.CreateStrategy? && RealmMay(s, r)
    ensures var t := RealmWrites(s, r); t == s.(strategies := t.strategies)
  {
  }

  lemma CreateStrategyKeeps(s: Hub, r: RealmWrite)
    requires r.CreateStrategy? && Inv(s) && RealmMay(s, r)
    ensures Inv(RealmWrites(s, r))
  {
    var t := RealmWrites(s, r);
    OnlyStrategyCreated(s, r);
    CreateStrategyHasRealm(s, r);
    ClientsStay(s, t);
    OAuthsStay(s, t);
    ServersStay(s, t);
  }

  lemma CreatedServersHaveRealms(s: Hub, r: RealmWrite)
    requires (r.CreateDexNamespace? || r.CreateDexServer?) && RealmMay(s, r)
    requires ServersHaveRealms(s)
    ensures ServersHaveRealms(RealmWrites(s, r))
  {
    var t := RealmWrites(s, r);
    CreatedServersOnly(s, r);
    assert DexNamespaceOf(t, DexNamespace(s, r.realm), r.realm);
    forall k | k in t.dexServers ensures exists u :: DexNamespaceOf(t, k.namespace, u) {
      if k in s.dexServers {
        var u :| DexNamespaceOf(s, k.namespace, u);
        assert DexNamespaceOf(t, k.namespace, u);
      }
    }
    forall ns | ns in t.namespaces && ns != OPERATOR_NAMESPACE ensures exists u :: DexNamespaceOf(t, ns, u) {
      if ns in s.namespaces {
        var u :| DexNamespaceOf(s, ns, u);
        assert DexNamespaceOf(t, ns, u);
      }
    }
  }

  lemma CreatedServersOnly(s: Hub, r: RealmWrite)
    requires (r.CreateDexNamespace? || r.CreateDexServer?) && RealmMay(s, r)
    ensures var t := RealmWrites(s, r);
            && t == s.(dexServers := t.dexServers, namespaces := t.namespaces)
            && (forall k :: k in t.dexServers ==> k in s.dexServers || k.namespace == DexNamespace(s, r.realm))
            && (forall ns :: ns in t.namespaces ==> ns in s.namespaces || ns == DexNamespace(s, r.realm))
  {
  }

  lemma CreateServersKeeps(s: Hub, r: RealmWrite)
    requires (r.CreateDexNamespace? || r.CreateDexServer?) && Inv(s) && RealmMay(s, r)
    ensures Inv(RealmWrites(s, r))
  {
    var t := RealmWrites(s, r);
    CreatedServersOnly(s, r);
    CreatedServersHaveRealms(s, r);
    StrategiesStay(s, t);
    ClientsStay(s, t);
    OAuthsStay(s, t);
  }

  /** Nothing refers to a realm that is being released. */
  lemma ReleasedIsUnused(s: Hub, realm: Key)
    requires NoOrphans(s) && StrategiesHaveRealms(s) && RealmMay(s, ReleaseRealm(realm))
    ensures forall k :: k in s.oauths ==> s.oauths[k].realm != realm
    ensures forall k :: k in s.strategies ==> Key(k.namespace, s.strategies[k].realm) != realm
  {
    forall k | k in s.oauths ensures s.oauths[k].realm != realm {
      assert Configured(s, k);
    }
    forall k | k in s.strategies ensures Key(k.namespace, s.strategies[k].realm) != realm {
      assert k == StrategyKey(Key(k.namespace, s.strategies[k].realm), s.strategies[k].stype);
    }
  }

  lemma ReleaseKeepsClients(s: Hub, realm: Key)
    requires ClientsHaveRealms(s) && RealmMay(s, ReleaseRealm(realm))
    ensures ClientsHaveRealms(RealmWrites(s, ReleaseRealm(realm)))
  {
    var t := RealmWrites(s, ReleaseRealm(realm));
    forall k | k in t.dexClients ensures exists r :: ClientOf(t, k, r) {
      var r :| ClientOf(s, k, r);
      assert ClientOf(t, k, r);
    }
  }

  lemma ReleaseKeepsServers(s: Hub, realm: Key)
    requires ServersHaveRealms(s) && RealmMay(s, ReleaseRealm(realm))
    ensures ServersHaveRealms(RealmWrites(s, ReleaseRealm(realm)))
  {
    var t := RealmWrites(s, ReleaseRealm(realm));
    forall k | k in t.dexServers ensures exists u :: DexNamespaceOf(t, k.namespace, u) {
      var u :| DexNamespaceOf(s, k.namespace, u);
      assert DexNamespaceOf(t, k.namespace, u);
    }
    forall ns | ns in t.namespaces && ns != OPERATOR_NAMESPACE ensures exists u :: DexNamespaceOf(t, ns, u) {
      var u :| DexNamespaceOf(s, ns, u);
      assert DexNamespaceOf(t, ns, u);
    }
  }

  lemma ReleaseKeepsOAuths(s: Hub, realm: Key)
    requires NoOrphans(s) && StrategiesHaveRealms(s) && RealmMay(s, ReleaseRealm(realm))
    ensures NoOrphans(RealmWrites(s, ReleaseRealm(realm)))
  {
    var t := RealmWrites(s, ReleaseRealm(realm));
    ReleasedIsUnused(s, realm);
    forall k | k in t.oauths ensures Configured(t, k) {
      assert Configured(s, k);
    }
  }

  lemma ReleaseKeepsStrategies(s: Hub, realm: Key)
    requires NoOrphans(s) && StrategiesHaveRealms(s) && RealmMay(s, ReleaseRealm(realm))
    ensures StrategiesHaveRealms(RealmWrites(s, ReleaseRealm(realm)))
  {
    var t := RealmWrites(s, ReleaseRealm(realm));
    ReleasedIsUnused(s, realm);
    forall k | k in t.strategies ensures Held(t, Key(k.namespace, t.strategies[k].realm)) {
      assert Held(s, Key(k.namespace, s.strategies[k].realm));
    }
  }

  lemma ReleaseRealmKeeps(s: Hub, r: RealmWrite)
    requires r.ReleaseRealm? && Inv(s) && RealmMay(s, r)
    ensures Inv(RealmWrites(s, r))
  {
    ReleaseKeepsOAuths(s, r.realm);
    ReleaseKeepsStrategies(s, r.realm);
    ReleaseKeepsClients(s, r.realm);
    ReleaseKeepsServers(s, r.realm);
  }

  lemma PlacementKeeps(s: Hub, p: PlacementWrite)
    requires Inv(s) && PlacementMay(s, p) && PresumedOfPlacement(s, p)
    ensures Inv(PlacementWrites(s, p))
  {
    if p.WriteDexClient? {
      WriteDexClientKeeps(s, p);
    } else if p.WriteOAuth? {
      WriteOAuthKeeps(s, p);
    } else if p.DeleteDexClient? {
      DeleteDexClientKeeps(s, p);
    } else {
      TouchingKeeps(s, p);
    }
  }

  lemma RealmKeeps(s: Hub, r: RealmWrite)
    requires Inv(s) && RealmMay(s, r)
    ensures Inv(RealmWrites(s, r))
  {
    if r.ReleaseRealm? {
      ReleaseRealmKeeps(s, r);
    } else if r.CreateStrategy? {
      CreateStrategyKeeps(s, r);
    } else if r.CreateDexNamespace? || r.CreateDexServer? {
      CreateServersKeeps(s, r);
    } else {
      DeletingAddsNothing(s, r);
      AddsNothingKeeps(s, RealmWrites(s, r));
    }
  }

  lemma ActionKeeps(s: Hub, a: Action)
    requires Inv(s) && Enabled(s, a) && Presumed(s, a)
    ensures Inv(Apply(s, a))
  {
    match a
    case ByPlacement(p) => PlacementKeeps(s, p);
    case ByAuthRealm(r) => RealmKeeps(s, r);
    case ByClusterOAuth(o) =>
      OAuthWritesAddNothing(s, o);
      AddsNothingKeeps(s, OAuthWrites(s, o));
    case Environment(next) =>
      EnvironmentAddsNothing(s, next);
      AddsNothingKeeps(s, next);
  }

  // ----- every run -----

  ghost predicate PresumedThroughout(s: Hub, run: seq<Action>)
    requires Legal(s, run)
    decreases |run|
  {
    run == [] || (Presumed(s, run[0]) && PresumedThroughout(Apply(s, run[0]), run[1..]))
  }

  /** The invariant holds after every prefix of every run. */
  lemma {:induction false} NoOrphanEver(s: Hub, run: seq<Action>, k: nat)
    requires Inv(s) && Legal(s, run) && PresumedThroughout(s, run) && k <= |run|
    ensures Legal(s, run[..k]) && Inv(Run(s, run[..k]))
    decreases |run|
  {
    if k > 0 {
      ActionKeeps(s, run[0]);
      NoOrphanEver(Apply(s, run[0]), run[1..], k - 1);
      assert run[..k][0] == run[0] && run[..k][1..] == run[1..][..k - 1];
    }
  }

  /** A finalizing ClusterOAuth or Strategy always finds its AuthRealm. */
  lemma RealmsAreFound(s: Hub)
    requires Inv(s)
    ensures forall k :: k in s.oauths ==> s.oauths[k].realm in s.realms
    ensures forall k :: k in s.strategies ==> Key(k.namespace, s.strategies[k].realm) in s.realms
  {
    forall k | k in s.oauths ensures s.oauths[k].realm in s.realms {
      assert Configured(s, k);
    }
  }

  /** A realm that has its finalizer only disappears when nothing of it is left. */
  lemma TeardownOrder(s: Hub, a: Action, realm: Key)
    requires Inv(s) && Enabled(s, a) && Held(s, realm) && realm !in Apply(s, a).realms
    ensures a == ByAuthRealm(ReleaseRealm(realm)) && s.realms[realm].deleting
    ensures NothingInDexNamespace(s, realm)
    ensures forall k :: k in s.strategies ==> Key(k.namespace, s.strategies[k].realm) != realm
    ensures forall k :: k in s.oauths ==> s.oauths[k].realm != realm
  {
    OnlyReleaseRemoves(s, a, realm);
    ReleasedIsUnused(s, realm);
  }

  lemma OnlyReleaseRemoves(s: Hub, a: Action, realm: Key)
    requires Enabled(s, a) && Held(s, realm) && realm !in Apply(s, a).realms
    ensures a == ByAuthRealm(ReleaseRealm(realm))
  {
    match a
    case ByPlacement(p) => PlacementKeepsSetUp(s, p);
    case ByAuthRealm(r) => if r != ReleaseRealm(realm) { RealmWritesKeepOthers(s, r, realm); }
    case ByClusterOAuth(o) => OAuthWritesKeepRealms(s, o);
    case Environment(_) =>
  }

  lemma OAuthWritesKeepRealms(s: Hub, o: OAuthWrite)
    requires OAuthMay(s, o)
    ensures OAuthWrites(s, o).realms == s.realms
  {
  }

  lemma RealmWritesKeepOthers(s: Hub, r: RealmWrite, realm: Key)
    requires RealmMay(s, r) && realm in s.realms && r != ReleaseRealm(realm)
    ensures realm in RealmWrites(s, r).realms
  {
  }
}
