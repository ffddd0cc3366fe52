/** createConfigs and the whole sync: a client secret, then a DexClient, then a ClusterOAuth for every
    decided cluster. */
module PlacementCreate {
  import opened Kube
  import opened Names
  import opened Hub
  import opened PlacementSync
  import HI = HubInvariant
  import ClusterState
  import PushProperties

  /** The three objects of a cluster are as one run of createConfigs leaves them. */
  predicate Settled(s: Hub, realm: Key, strategy: Key, cluster: string)
    requires realm in s.realms && strategy in s.strategies
  {
    var client, oauth := DexClientKey(s, realm, cluster), OAuthKey(realm, cluster);
    && SecretKey(realm, cluster) in s.secrets
    && cluster in s.hosts
    && client in s.dexClients && s.dexClients[client] == WantedClient(s, realm, strategy, cluster)
    && oauth in s.oauths && s.oauths[oauth] == WantedOAuth(s, realm, strategy, cluster)
  }

  /** ClusterOAuths and DexClients that were there are there, with the finalizer and the deletion mark that
      they had; new ones have neither. */
  ghost predicate SameLife(s: Hub, t: Hub) {
    && (forall k :: k in s.oauths ==>
          k in t.oauths &&
          t.oauths[k].finalizer == s.oauths[k].finalizer && t.oauths[k].deleting == s.oauths[k].deleting)
    && (forall k :: k in s.dexClients ==>
          k in t.dexClients &&
          t.dexClients[k].finalizer == s.dexClients[k].finalizer &&
              t.dexClients[k].deleting == s.dexClients[k].deleting)
    && (forall k :: k in t.oauths && k !in s.oauths ==> !t.oauths[k].finalizer && !t.oauths[k].deleting)
    && (forall k :: k in t.dexClients && k !in s.dexClients ==>
          !t.dexClients[k].finalizer && !t.dexClients[k].deleting)
  }

  /** Only the objects of the cluster differ between `s` and `t`. A secret that existed keeps its
      value, a DexClient that existed its label. */
  ghost predicate OnlyCluster(s: Hub, t: Hub, realm: Key, cluster: string)
    requires realm in s.realms
  {
    var client := DexClientKey(s, realm, cluster);
    && OnlyConfigs(s, t) && SameLife(s, t)
    && (forall k :: k in s.secrets ==> k in t.secrets && t.secrets[k] == s.secrets[k])
    && (forall k :: k != client ==>
        (k in t.dexClients <==> k in s.dexClients) && (k in s.dexClients ==> t.dexClients[k] == s.dexClients[k]))
    && (client !in s.dexClients && client in t.dexClients ==> t.dexClients[client].cluster == cluster)
    && (client in s.dexClients ==>
          client in t.dexClients && t.dexClients[client].stype == s.dexClients[client].stype &&
              t.dexClients[client].cluster == s.dexClients[client].cluster)
    && (NamedByRealm(s) ==> NamedByRealm(t))
    && (OAuthKey(realm, cluster) in s.oauths ==> OAuthKey(realm, cluster) in t.oauths)
    && (forall k :: k != OAuthKey(realm, cluster) ==>
        (k in t.oauths <==> k in s.oauths) && (k in s.oauths ==> t.oauths[k] == s.oauths[k]))
  }

  lemma DifferentClients(s: Hub, realm: Key, a: string, b: string)
    requires realm in s.realms && a != b
    ensures DexClientKey(s, realm, a) != DexClientKey(s, realm, b) && OAuthKey(realm, a) != OAuthKey(realm, b)
  {
    DexClientNameInjective(realm.name, a, b);
  }

  /** Working on one cluster leaves the others settled. */
  lemma OthersStaySettled(s: Hub, t: Hub, realm: Key, strategy: Key, cluster: string, other: string)
    requires realm in s.realms && strategy in s.strategies && OnlyCluster(s, t, realm, cluster)
    requires other != cluster && Settled(s, realm, strategy, other)
    ensures Settled(t, realm, strategy, other)
  {
    DifferentClients(s, realm, cluster, other);
  }

  // ----- one cluster -----

  predicate Creation(a: Action, realm: Key, strategy: Key, clusters: seq<string>) {
    a.ByPlacement? && match a.p
    case CreateSecret(_, _) => true
    case WriteDexClient(r, st, c) => r == realm && st == strategy && c in clusters
    case WriteOAuth(r, st, c) => r == realm && st == strategy && c in clusters
    case _ => false
  }

  method RandomString() returns (s: string) {
    s := *;
  }

  /** createClientSecret: an existing secret is left alone. */
  method CreateClientSecret(store: HubStore, realm: Key, cluster: string) returns (ok: bool, ghost run: seq<Action>)
    modifies store
    ensures Leads(old(store.hub), run, store.hub) && forall a <- run :: a.ByPlacement? && a.p.CreateSecret?
    ensures store.hub == old(store.hub).(secrets := store.hub.secrets)
    ensures forall k :: k in old(store.hub).secrets ==>
        k in store.hub.secrets && store.hub.secrets[k] == old(store.hub).secrets[k]
    ensures if ok then SecretKey(realm, cluster) in store.hub.secrets else store.writes == 0
    ensures store.hub.hosts == old(store.hub).hosts
    ensures SecretKey(realm, cluster) in old(store.hub).secrets ==> store.hub == old(store.hub)
  {
    run, ok := [], true;
    if SecretKey(realm, cluster) !in store.hub.secrets {
      var value := RandomString();
      ok, run := store.Write(ByPlacement(CreateSecret(SecretKey(realm, cluster), value)));
    }
  }

  lemma SecretOnly(s: Hub, t: Hub, realm: Key, cluster: string)
    requires realm in s.realms && t == s.(secrets := t.secrets)
    requires forall k :: k in s.secrets ==> k in t.secrets && t.secrets[k] == s.secrets[k]
    ensures OnlyCluster(s, t, realm, cluster)
  {
  }

  lemma ClientOnly(s: Hub, p: PlacementWrite)
    requires p.WriteDexClient? && PlacementMay(s, p)
    ensures OnlyCluster(s, PlacementWrites(s, p), p.realm, p.cluster)
  {
  }

  lemma OAuthOnly(s: Hub, p: PlacementWrite)
    requires p.WriteOAuth? && PlacementMay(s, p)
    ensures OnlyCluster(s, PlacementWrites(s, p), p.realm, p.cluster)
  {
  }

  lemma ClientWritten(s: Hub, p: PlacementWrite)
    requires p.WriteDexClient? && PlacementMay(s, p)
    ensures var t, key := PlacementWrites(s, p), DexClientKey(s, p.realm, p.cluster);
            && t == s.(dexClients := Put(s.dexClients, key, WantedClient(s, p.realm, p.strategy, p.cluster)))
            && t.dexClients[key] == WantedClient(t, p.realm, p.strategy, p.cluster)
            && OnlyCluster(s, t, p.realm, p.cluster)
            && (key in s.dexClients && s.dexClients[key] == WantedClient(s, p.realm, p.strategy, p.cluster) ==> t == s)
  {
    ClientOnly(s, p);
    var t, key := PlacementWrites(s, p), DexClientKey(s, p.realm, p.cluster);
    if key in s.dexClients && s.dexClients[key] == WantedClient(s, p.realm, p.strategy, p.cluster) {
      assert t.dexClients == s.dexClients;
    }
  }

  lemma OAuthWritten(s: Hub, p: PlacementWrite)
    requires p.WriteOAuth? && PlacementMay(s, p)
    ensures var t, key := PlacementWrites(s, p), OAuthKey(p.realm, p.cluster);
            && t == s.(oauths := Put(s.oauths, key, WantedOAuth(s, p.realm, p.strategy, p.cluster)))
            && t.oauths[key] == WantedOAuth(t, p.realm, p.strategy, p.cluster)
            && OnlyCluster(s, t, p.realm, p.cluster)
            && (key in s.oauths && s.oauths[key] == WantedOAuth(s, p.realm, p.strategy, p.cluster) ==> t == s)
  {
    OAuthOnly(s, p);
    var t, key := PlacementWrites(s, p), OAuthKey(p.realm, p.cluster);
    if key in s.oauths && s.oauths[key] == WantedOAuth(s, p.realm, p.strategy, p.cluster) {
      assert t.oauths == s.oauths;
    }
  }

  lemma OnlyClusterTwice(s: Hub, t: Hub, u: Hub, realm: Key, cluster: string)
    requires realm in s.realms && OnlyCluster(s, t, realm, cluster) && OnlyCluster(t, u, realm, cluster)
    ensures OnlyCluster(s, u, realm, cluster)
  {
  }

  method CreateDexClient(store: HubStore, realm: Key, strategy: Key, cluster: string)
    returns (ok: bool, ghost run: seq<Action>)
    requires realm in store.hub.realms && !store.hub.realms[realm].deleting && Owns(store.hub, realm, strategy)
    requires SecretKey(realm, cluster) in store.hub.secrets
    modifies store
    ensures Leads(old(store.hub), run, store.hub) && OnlyCluster(old(store.hub), store.hub, realm, cluster)
    ensures forall a <- run :: Creation(a, realm, strategy, [cluster])
    ensures store.hub == old(store.hub).(dexClients := store.hub.dexClients)
    ensures var key := DexClientKey(store.hub, realm, cluster);
            && (!ok ==> store.writes == 0 || cluster !in store.hub.hosts)
            && (ok ==>
                  && cluster in store.hub.hosts && key in store.hub.dexClients
                  && store.hub.dexClients[key] == WantedClient(store.hub, realm, strategy, cluster))
            && (Settled(old(store.hub), realm, strategy, cluster) ==> store.hub == old(store.hub))
  {
    if cluster !in store.hub.hosts {
      return false, [];
    }
    ClientWritten(store.hub, WriteDexClient(realm, strategy, cluster));
    ok, run := store.Write(ByPlacement(WriteDexClient(realm, strategy, cluster)));
  }

  method CreateClusterOAuth(store: HubStore, realm: Key, strategy: Key, cluster: string)
    returns (ok: bool, ghost run: seq<Action>)
    requires realm in store.hub.realms && !store.hub.realms[realm].deleting && Owns(store.hub, realm, strategy)
    requires DexClientKey(store.hub, realm, cluster) in store.hub.dexClients
    modifies store
    ensures Leads(old(store.hub), run, store.hub) && OnlyCluster(old(store.hub), store.hub, realm, cluster)
    ensures forall a <- run :: Creation(a, realm, strategy, [cluster])
    ensures store.hub == old(store.hub).(oauths := store.hub.oauths)
    ensures var key := OAuthKey(realm, cluster);
            && (!ok ==> store.writes == 0 || !store.hub.appsURL)
            && (ok ==>
                  store.hub.appsURL && key in store.hub.oauths &&
                      store.hub.oauths[key] == WantedOAuth(store.hub, realm, strategy, cluster))
            && (Settled(old(store.hub), realm, strategy, cluster) ==> store.hub == old(store.hub))
  {
    if !store.hub.appsURL {
      return false, [];
    }
    OAuthWritten(store.hub, WriteOAuth(realm, strategy, cluster));
    ok, run := store.Write(ByPlacement(WriteOAuth(realm, strategy, cluster)));
  }

  /** The callback host of the cluster, or the apps URL of the hub, cannot be looked up. */
  predicate Unknown(s: Hub, cluster: string) {
    cluster !in s.hosts || !s.appsURL
  }

  /** The body of the loop over the decisions. */
  method ConfigureCluster(store: HubStore, realm: Key, strategy: Key, cluster: string)
    returns (ok: bool, ghost run: seq<Action>)
    requires realm in store.hub.realms && !store.hub.realms[realm].deleting && Owns(store.hub, realm, strategy)
    modifies store
    ensures Leads(old(store.hub), run, store.hub) && OnlyCluster(old(store.hub), store.hub, realm, cluster)
    ensures forall a <- run :: Creation(a, realm, strategy, [cluster])
    ensures if ok then Settled(store.hub, realm, strategy, cluster) && !Unknown(store.hub, cluster)
            else store.writes == 0 || Unknown(store.hub, cluster)
    ensures Settled(old(store.hub), realm, strategy, cluster) ==> store.hub == old(store.hub)
  {
    ghost var s0 := store.hub;
    ok, run := CreateClientSecret(store, realm, cluster);
    SecretOnly(s0, store.hub, realm, cluster);
    if !ok {
      return;
    }
    ghost var s, done := store.hub, run;
    ok, run := ConfigureClient(store, realm, strategy, cluster);
    LeadsThen(s0, done, s, run, store.hub);
    OnlyClusterTwice(s0, s, store.hub, realm, cluster);
    run := done + run;
  }

  /** The DexClient, then the ClusterOAuth. */
  method ConfigureClient(store: HubStore, realm: Key, strategy: Key, cluster: string)
    returns (ok: bool, ghost run: seq<Action>)
    requires realm in store.hub.realms && !store.hub.realms[realm].deleting && Owns(store.hub, realm, strategy)
    requires SecretKey(realm, cluster) in store.hub.secrets
    modifies store
    ensures Leads(old(store.hub), run, store.hub) && OnlyCluster(old(store.hub), store.hub, realm, cluster)
    ensures forall a <- run :: Creation(a, realm, strategy, [cluster])
    ensures if ok then Settled(store.hub, realm, strategy, cluster) && !Unknown(store.hub, cluster)
            else store.writes == 0 || Unknown(store.hub, cluster)
    ensures Settled(old(store.hub), realm, strategy, cluster) ==> store.hub == old(store.hub)
  {
    ok, run := CreateDexClient(store, realm, strategy, cluster);
    if !ok {
      return;
    }
    ghost var s, done := store.hub, run;
    ok, run := CreateClusterOAuth(store, realm, strategy, cluster);
    LeadsThen(old(store.hub), done, s, run, store.hub);
    OnlyClusterTwice(old(store.hub), s, store.hub, realm, cluster);
    run := done + run;
  }

  // ----- all decided clusters -----

  predicate AllSettled(s: Hub, realm: Key, strategy: Key, clusters: seq<string>)
    requires realm in s.realms && strategy in s.strategies
  {
    forall c <- clusters :: Settled(s, realm, strategy, c)
  }

  /** What createConfigs may change: nothing that existed loses its secret value, its label, its finalizer or
      its deletion mark, and nothing of a cluster that is not decided changes. */
  ghost predicate OnlyDecided(s: Hub, t: Hub, realm: Key, decisions: seq<string>)
    requires realm in s.realms
  {
    && OnlyConfigs(s, t) && SameLife(s, t)
    && (forall k :: k in s.secrets ==> k in t.secrets && t.secrets[k] == s.secrets[k])
    && DecidedClients(s, t, realm, decisions) && DecidedOAuths(s, t, realm, decisions)
    && (NamedByRealm(s) ==> NamedByRealm(t))
  }

  ghost predicate DecidedClients(s: Hub, t: Hub, realm: Key, decisions: seq<string>)
    requires realm in s.realms
  {
    && (forall k :: k in s.dexClients ==>
          k in t.dexClients && t.dexClients[k].stype == s.dexClients[k].stype &&
              t.dexClients[k].cluster == s.dexClients[k].cluster)
    && (forall k :: k in t.dexClients && k !in s.dexClients ==> t.dexClients[k].cluster in decisions)
    && (forall k: Key :: k.namespace != DexNamespace(s, realm) ==>
          (k in t.dexClients <==> k in s.dexClients) && (k in s.dexClients ==> t.dexClients[k] == s.dexClients[k]))
  }

  ghost predicate DecidedOAuths(s: Hub, t: Hub, realm: Key, decisions: seq<string>) {
    forall k :: k in t.oauths ==>
      (k in s.oauths && t.oauths[k] == s.oauths[k]) || exists c <- decisions :: k == OAuthKey(realm, c)
  }

  lemma SameLifeTwice(s: Hub, t: Hub, u: Hub)
    requires SameLife(s, t) && SameLife(t, u)
    ensures SameLife(s, u)
  {
  }

  lemma ClientsStep(s: Hub, t: Hub, u: Hub, realm: Key, decisions: seq<string>, cluster: string)
    requires realm in s.realms && t.realms == s.realms && cluster in decisions
    requires DecidedClients(s, t, realm, decisions) && OnlyCluster(t, u, realm, cluster)
    ensures DecidedClients(s, u, realm, decisions)
  {
    forall k | k in u.dexClients && k !in s.dexClients ensures u.dexClients[k].cluster in decisions {
      if k != DexClientKey(s, realm, cluster) {
        assert k in t.dexClients;
      }
    }
  }

  lemma OAuthsStep(s: Hub, t: Hub, u: Hub, realm: Key, decisions: seq<string>, cluster: string)
    requires realm in t.realms && cluster in decisions
    requires DecidedOAuths(s, t, realm, decisions) && OnlyCluster(t, u, realm, cluster)
    ensures DecidedOAuths(s, u, realm, decisions)
  {
    forall k | k in u.oauths ensures (k in s.oauths && u.oauths[k] == s.oauths[k]) ||
        exists c <- decisions :: k == OAuthKey(realm, c) {
      if k != OAuthKey(realm, cluster) {
        assert k in t.oauths;
      }
    }
  }

  lemma DecidedStep(s: Hub, t: Hub, u: Hub, realm: Key, decisions: seq<string>, cluster: string)
    requires realm in s.realms && cluster in decisions
    requires OnlyDecided(s, t, realm, decisions) && OnlyCluster(t, u, realm, cluster)
    ensures OnlyDecided(s, u, realm, decisions)
  {
    SameLifeTwice(s, t, u);
    ClientsStep(s, t, u, realm, decisions, cluster);
    OAuthsStep(s, t, u, realm, decisions, cluster);
  }

  lemma NextSettled(s: Hub, t: Hub, realm: Key, strategy: Key, decisions: seq<string>, i: nat)
    requires realm in s.realms && strategy in s.strategies && i < |decisions|
    requires OnlyCluster(s, t, realm, decisions[i]) && Settled(t, realm, strategy, decisions[i])
    requires AllSettled(s, realm, strategy, decisions[..i])
    ensures AllSettled(t, realm, strategy, decisions[..i + 1])
  {
    forall c | c in decisions[..i + 1] ensures Settled(t, realm, strategy, c) {
      if c != decisions[i] {
        assert c in decisions[..i];
        OthersStaySettled(s, t, realm, strategy, decisions[i], c);
      }
    }
  }

  /** createConfigs: on success every decided cluster is settled, and on clusters that are settled
      already it changes nothing, including the random secret values. */
  method CreateConfigs(store: HubStore, realm: Key, strategy: Key, placement: Key)
    returns (ok: bool, ghost run: seq<Action>)
    requires realm in store.hub.realms && Owns(store.hub, realm, strategy) && placement in store.hub.placements
    modifies store
    ensures Leads(old(store.hub), run, store.hub)
    ensures forall a <- run :: Creation(a, realm, strategy, old(store.hub).placements[placement].decisions)
    ensures OnlyConfigs(old(store.hub), store.hub)
    ensures old(store.hub).realms[realm].deleting ==> store.hub == old(store.hub)
    ensures ok && !old(store.hub).realms[realm].deleting ==>
        AllSettled(store.hub, realm, strategy, store.hub.placements[placement].decisions) &&
        !AddressMissing(store.hub, placement)
    ensures AllSettled(old(store.hub), realm, strategy, store.hub.placements[placement].decisions) ==>
        store.hub == old(store.hub)
    ensures OnlyDecided(old(store.hub), store.hub, realm, store.hub.placements[placement].decisions)
    ensures !ok ==> store.writes == 0 || AddressMissing(store.hub, placement)
  {
    if store.hub.realms[realm].deleting {
      return true, [];
    }
    ok, run := CreateDecided(store, realm, strategy, store.hub.placements[placement].decisions);
  }

  /** The writes of `run` configure decided clusters. */
  ghost predicate Creating(s: Hub, run: seq<Action>, t: Hub, realm: Key, strategy: Key, decisions: seq<string>)
    requires realm in s.realms && strategy in s.strategies
  {
    && Leads(s, run, t) && OnlyDecided(s, t, realm, decisions)
    && (forall a <- run :: Creation(a, realm, strategy, decisions))
    && (AllSettled(s, realm, strategy, decisions) ==> t == s)
  }

  lemma CreatingThen(s: Hub, done: seq<Action>, t: Hub, run: seq<Action>, u: Hub, realm: Key, strategy: Key,
                     decisions: seq<string>, i: nat)
    requires realm in s.realms && strategy in s.strategies && i < |decisions|
    requires Creating(s, done, t, realm, strategy, decisions)
    requires Leads(t, run, u) && OnlyCluster(t, u, realm, decisions[i])
    requires forall a <- run :: Creation(a, realm, strategy, [decisions[i]])
    requires Settled(t, realm, strategy, decisions[i]) ==> u == t
    ensures Creating(s, done + run, u, realm, strategy, decisions)
  {
    LeadsThen(s, done, t, run, u);
    OneOfMany(run, realm, strategy, decisions, i);
    DecidedStep(s, t, u, realm, decisions, decisions[i]);
  }

  /** The `i`-th cluster after those before it. */
  method ConfigureNext(store: HubStore, realm: Key, strategy: Key, decisions: seq<string>, i: nat, ghost s0: Hub,
                       ghost done: seq<Action>)
    returns (ok: bool, ghost run: seq<Action>)
    requires i < |decisions| && realm in s0.realms && !s0.realms[realm].deleting && Owns(s0, realm, strategy)
    requires Creating(s0, done, store.hub, realm, strategy, decisions)
    requires AllSettled(store.hub, realm, strategy, decisions[..i])
    modifies store
    ensures Creating(s0, run, store.hub, realm, strategy, decisions)
    ensures if ok then !Unknown(store.hub, decisions[i]) && AllSettled(store.hub, realm, strategy, decisions[..i + 1])
            else store.writes == 0 || Unknown(store.hub, decisions[i])
  {
    ghost var s := store.hub;
    ok, run := ConfigureCluster(store, realm, strategy, decisions[i]);
    CreatingThen(s0, done, s, run, store.hub, realm, strategy, decisions, i);
    run := done + run;
    if ok {
      NextSettled(s, store.hub, realm, strategy, decisions, i);
    }
  }

  /** The loop over the decisions. */
  method CreateDecided(store: HubStore, realm: Key, strategy: Key, decisions: seq<string>)
    returns (ok: bool, ghost run: seq<Action>)
    requires realm in store.hub.realms && !store.hub.realms[realm].deleting && Owns(store.hub, realm, strategy)
    modifies store
    ensures Creating(old(store.hub), run, store.hub, realm, strategy, decisions)
    ensures if ok then AllSettled(store.hub, realm, strategy, decisions) &&
        forall c <- decisions :: !Unknown(store.hub, c)
            else store.writes == 0 || exists c <- decisions :: Unknown(store.hub, c)
  {
    ghost var s0 := store.hub;
    run, ok := [], true;
    for i := 0 to |decisions|
      invariant Creating(s0, run, store.hub, realm, strategy, decisions)
      invariant AllSettled(store.hub, realm, strategy, decisions[..i])
      invariant forall c <- decisions[..i] :: !Unknown(store.hub, c)
    {
      ok, run := ConfigureNext(store, realm, strategy, decisions, i, s0, run);
      if !ok {
        assert decisions[i] in decisions;
        return;
      }
    }
    assert decisions[..|decisions|] == decisions;
  }

  lemma OneOfMany(run: seq<Action>, realm: Key, strategy: Key, clusters: seq<string>, i: nat)
    requires i < |clusters| && forall a <- run :: Creation(a, realm, strategy, [clusters[i]])
    ensures forall a <- run :: Creation(a, realm, strategy, clusters)
  {
  }

  // ----- the whole sync -----

  /** A decided cluster for which an address is not known. */
  predicate AddressMissing(s: Hub, placement: Key)
    requires placement in s.placements
  {
    exists c <- s.placements[placement].decisions :: Unknown(s, c)
  }

  /** The writes of a sync that began in `s`. */
  predicate SyncWrite(s: Hub, a: Action, realm: Key, strategy: Key, placement: Key)
    requires realm in s.realms && strategy in s.strategies && placement in s.placements
  {
    ObsoleteDeletion(s, a, realm, strategy, placement) ||
        Creation(a, realm, strategy, s.placements[placement].decisions)
  }

  /** What a sync of a live realm only writes, the ClusterOAuths and DexClients of decided clusters, keeps its
      finalizer and its deletion mark. */
  ghost predicate OnlyWritten(s: Hub, t: Hub, realm: Key, decisions: seq<string>)
    requires realm in s.realms
  {
    !s.realms[realm].deleting ==>
      && (forall k :: k in s.oauths && k.namespace in decisions ==>
            k in t.oauths &&
            t.oauths[k].finalizer == s.oauths[k].finalizer && t.oauths[k].deleting == s.oauths[k].deleting)
      && (forall k :: k in s.dexClients && s.dexClients[k].cluster in decisions ==>
            k in t.dexClients && t.dexClients[k].finalizer == s.dexClients[k].finalizer &&
            t.dexClients[k].deleting == s.dexClients[k].deleting)
  }

  /** What a sync leaves to other realms: DexClients outside its own Dex namespace and, while its realm
      lives, the secrets of the decided clusters and their ClusterOAuths of other names. */
  ghost predicate SyncLeaves(s: Hub, t: Hub, realm: Key, decisions: seq<string>)
    requires realm in s.realms
  {
    && OnlyWritten(s, t, realm, decisions)
    && (forall k: Key :: k.namespace != DexNamespace(s, realm) ==>
          (k in t.dexClients <==> k in s.dexClients) && (k in s.dexClients ==> t.dexClients[k] == s.dexClients[k]))
    && (!s.realms[realm].deleting ==>
          && (forall k :: k in s.secrets && k.namespace in decisions ==> k in t.secrets)
          && (forall k :: k in s.oauths && k.namespace in decisions && k.name != ClusterOAuthName(realm) ==>
                k in t.oauths && t.oauths[k] == s.oauths[k]))
  }

  lemma DeletionLeaves(s: Hub, t: Hub, realm: Key, strategy: Key, placement: Key)
    requires realm in s.realms && strategy in s.strategies && placement in s.placements
    requires OnlyObsolete(s, t, realm, strategy, placement)
    ensures SyncLeaves(s, t, realm, s.placements[placement].decisions)
  {
  }

  lemma CreationLeaves(s: Hub, t: Hub, u: Hub, realm: Key, decisions: seq<string>)
    requires realm in s.realms && t.realms == s.realms && SyncLeaves(s, t, realm, decisions) &&
        OnlyDecided(t, u, realm, decisions)
    ensures SyncLeaves(s, u, realm, decisions)
  {
    WrittenTwice(s, t, u, realm, decisions);
  }

  lemma WrittenTwice(s: Hub, t: Hub, u: Hub, realm: Key, decisions: seq<string>)
    requires realm in s.realms && OnlyWritten(s, t, realm, decisions) && SameLife(t, u)
    ensures OnlyWritten(s, u, realm, decisions)
  {
  }

  /** A realm that is in step stays so during the sync of another one that lives. */
  lemma InStepStays(s: Hub, t: Hub, realm: Key, strategy: Key, placement: Key, other: Key)
    requires WellNamed(s) && realm in s.realms && other in s.realms && other != realm && !s.realms[other].deleting
    requires strategy in s.strategies && placement in s.placements && OnlyConfigs(s, t)
    requires SyncLeaves(s, t, other, s.placements[placement].decisions) && InStep(s, realm, strategy, placement)
    ensures InStep(t, realm, strategy, placement)
  {
    if DexNamespace(s, other) == DexNamespace(s, realm) {
      HI.SameDexNamespace(s, other, realm);
    }
    StaysNoneObsolete(s, t, realm, strategy, placement, other);
    if !s.realms[realm].deleting {
      forall c | c in s.placements[placement].decisions ensures Settled(t, realm, strategy, c) {
        assert Settled(s, realm, strategy, c);
      }
    }
  }

  lemma StaysNoneObsolete(s: Hub, t: Hub, realm: Key, strategy: Key, placement: Key, other: Key)
    requires realm in s.realms && other in s.realms && DexNamespace(s, other) != DexNamespace(s, realm)
    requires strategy in s.strategies && placement in s.placements && OnlyConfigs(s, t)
    requires SyncLeaves(s, t, other, s.placements[placement].decisions) && NoneObsolete(s, realm, strategy, placement)
    ensures NoneObsolete(t, realm, strategy, placement)
  {
    forall k | k in t.dexClients ensures !Obsolete(t, k, realm, strategy, placement) {
      if k.namespace == DexNamespace(s, realm) {
        assert k in s.dexClients && !Obsolete(s, k, realm, strategy, placement);
      }
    }
  }

  /** syncDexClients: it only fails on a failing write or a missing address, and only waits for DexClients
      that are obsolete. */
  method SyncDexClients(store: HubStore, realm: Key, strategy: Key, placement: Key)
    returns (outcome: Outcome, ghost run: seq<Action>)
    requires NamedByRealm(store.hub)
    requires realm in store.hub.realms && Owns(store.hub, realm, strategy) && placement in store.hub.placements
    modifies store
    ensures outcome in {Done, Requeue, Failed}
    ensures Leads(old(store.hub), run, store.hub) && OnlyConfigs(old(store.hub), store.hub) && NamedByRealm(store.hub)
    ensures forall a <- run :: SyncWrite(old(store.hub), a, realm, strategy, placement)
    ensures SyncEnd(store.hub, store.writes, outcome, realm, strategy, placement)
    ensures SyncLeaves(old(store.hub), store.hub, realm, store.hub.placements[placement].decisions)
    ensures FewerObsolete(old(store.hub), store.hub, realm, strategy, placement)
  {
    outcome, run := DeleteObsoleteConfigs(store, realm, strategy, placement);
    DeletionLeaves(old(store.hub), store.hub, realm, strategy, placement);
    ObsoleteFewer(old(store.hub), store.hub, realm, strategy, placement);
    if !outcome.Done? {
      return;
    }
    ghost var s, done := store.hub, run;
    var ok;
    ok, run := CreateConfigs(store, realm, strategy, placement);
    CreationLeaves(old(store.hub), s, store.hub, realm, s.placements[placement].decisions);
    CreatedInStep(s, store.hub, realm, strategy, placement);
    LeadsThen(old(store.hub), done, s, run, store.hub);
    run := done + run;
    if !ok {
      return Failed, run;
    }
  }

  ghost predicate SyncEnd(s: Hub, writes: nat, outcome: Outcome, realm: Key, strategy: Key, placement: Key)
    requires realm in s.realms && strategy in s.strategies && placement in s.placements
  {
    match outcome
    case Done => InStep(s, realm, strategy, placement) && (!s.realms[realm].deleting ==> !AddressMissing(s, placement))
    case Requeue => !NoneObsolete(s, realm, strategy, placement) && Advanced(s, realm, strategy, placement)
    case Failed => writes == 0 || AddressMissing(s, placement)
    case RequeueAfter => false
  }

  /** What a sync that ends with Done leaves: DexClients of this type for decided clusters only, none
      for a realm in deletion, and otherwise every decided cluster settled. */
  ghost predicate InStep(s: Hub, realm: Key, strategy: Key, placement: Key)
    requires realm in s.realms && strategy in s.strategies && placement in s.placements
  {
    && NoneObsolete(s, realm, strategy, placement)
    && (!s.realms[realm].deleting ==> AllSettled(s, realm, strategy, s.placements[placement].decisions))
  }

  lemma CreatedInStep(s: Hub, t: Hub, realm: Key, strategy: Key, placement: Key)
    requires realm in s.realms && strategy in s.strategies && placement in s.placements
    requires NoneObsolete(s, realm, strategy, placement)
    requires s.realms[realm].deleting ==> t == s
    requires OnlyDecided(s, t, realm, s.placements[placement].decisions)
    ensures NoneObsolete(t, realm, strategy, placement)
  {
    forall k | k in t.dexClients ensures !Obsolete(t, k, realm, strategy, placement) {
      if k in s.dexClients {
        assert !Obsolete(s, k, realm, strategy, placement);
      }
    }
  }

  /** Sync is exact: in every reachable state in which each decided cluster is of the type of the
      strategy, a sync that ended with Done leaves exactly one DexClient of that type per decided
      cluster, and none when the realm is being deleted. */
  lemma SyncIsExact(s: Hub, realm: Key, strategy: Key, placement: Key)
    requires HI.WellNamedClients(s) && realm in s.realms && strategy in s.strategies && placement in s.placements
    requires InStep(s, realm, strategy, placement)
    requires forall c <- s.placements[placement].decisions :: TypeOf(s, c) == s.strategies[strategy].stype
    ensures forall k ::
              (&& k in s.dexClients && k.namespace == DexNamespace(s, realm)
               && s.dexClients[k].stype == s.strategies[strategy].stype) <==>
              (&& !s.realms[realm].deleting
               && exists c <- s.placements[placement].decisions :: k == DexClientKey(s, realm, c))
    ensures !s.realms[realm].deleting ==>
        forall c <- s.placements[placement].decisions :: s.dexClients[DexClientKey(s, realm, c)].cluster == c
  {
    var decisions := s.placements[placement].decisions;
    forall k | k in s.dexClients && k.namespace == DexNamespace(s, realm) &&
        s.dexClients[k].stype == s.strategies[strategy].stype
      ensures !s.realms[realm].deleting && exists c <- decisions :: k == DexClientKey(s, realm, c)
    {
      var r :| HI.ClientOf(s, k, r);
      HI.SameDexNamespace(s, r, realm);
      assert !Obsolete(s, k, realm, strategy, placement);
      assert k == DexClientKey(s, realm, s.dexClients[k].cluster);
    }
    if !s.realms[realm].deleting {
      forall c | c in decisions
        ensures DexClientKey(s, realm, c) in s.dexClients && s.dexClients[DexClientKey(s, realm, c)].cluster == c
        ensures s.dexClients[DexClientKey(s, realm, c)].stype == s.strategies[strategy].stype
      {
        assert Settled(s, realm, strategy, c);
        HI.ClientAtKey(s, realm, c);
      }
    }
  }

  /** The ClusterOAuth and the DexClient of a settled cluster agree: on the client ID, on the secret,
      and on the provider name that ends the callback. */
  lemma SettledAgree(s: Hub, realm: Key, strategy: Key, cluster: string)
    requires realm in s.realms && strategy in s.strategies && Settled(s, realm, strategy, cluster)
    ensures var client, oauth := s.dexClients[DexClientKey(s, realm, cluster)], s.oauths[OAuthKey(realm, cluster)];
            && oauth.provider.clientId == client.clientId
            && client.secret in s.secrets && client.secret == Key(cluster, oauth.provider.secretName)
            && client.redirect == RedirectURI(s.hosts[cluster], oauth.provider.name)
            && oauth.provider.secretName == OAuthKey(realm, cluster).name
            && oauth.dexClient == DexClientKey(s, realm, cluster)
            && oauth.realm == realm && oauth.strategy == strategy && oauth.provider.name == realm.name
            && s.hosts[cluster] <= client.redirect && |realm.name| <= |client.redirect|
            && client.redirect[|client.redirect| - |realm.name|..] == realm.name
  {
    RedirectCallsBack(s.hosts[cluster], realm.name, realm.name);
  }

  /** So a ClusterOAuth built here is pushed with closed references. */
  lemma SettledIsPushable(s: Hub, realm: Key, strategy: Key, cluster: string, t: Option<StrategyType>)
    requires realm in s.realms && strategy in s.strategies && Settled(s, realm, strategy, cluster)
    ensures var oauth := s.oauths[OAuthKey(realm, cluster)];
            PushProperties.BuiltByPlacement([ClusterState.ClusterOAuth(OAuthKey(realm, cluster).name, [oauth.provider],
                t, oauth.finalizer, oauth.deleting)])
  {
    SettledAgree(s, realm, strategy, cluster);
  }
}
