/** The passes of the placement controller: keeping client secrets, DexClients and ClusterOAuths in
    step with the decisions of a placement. */
module PlacementSync {
  import opened Kube
  import opened Names
  import opened Hub

  /** createClusterOAuth names a ClusterOAuth after its realm. */
  ghost predicate NamedByRealm(s: Hub) {
    forall k :: k in s.oauths ==> k == OAuthKey(s.oauths[k].realm, k.namespace)
  }

  predicate Owned(s: Hub, k: Key, cluster: string, owners: seq<string>)
    requires k in s.oauths
  {
    k.namespace == cluster && s.oauths[k].strategy.name in owners
  }

  /** Every ClusterOAuth of the owners that is left in the cluster is being deleted. */
  ghost predicate OwnedMarked(s: Hub, cluster: string, owners: seq<string>) {
    forall k :: k in s.oauths && Owned(s, k, cluster, owners) ==> s.oauths[k].deleting
  }

  /** The client secrets of the ClusterOAuths that the owners had in the cluster are gone. */
  ghost predicate SecretsGone(s: Hub, t: Hub, cluster: string, owners: seq<string>) {
    forall k :: k in s.oauths && Owned(s, k, cluster, owners) ==> SecretKey(s.oauths[k].realm, cluster) !in t.secrets
  }

  // ----- deleting the configuration of a cluster -----

  /** Between `s` and `t`, secrets and ClusterOAuths went or were marked, and nothing else happened. */
  ghost predicate ConfigsWent(s: Hub, t: Hub) {
    && t == s.(secrets := t.secrets, oauths := t.oauths)
    && t.secrets.Keys <= s.secrets.Keys
    && (forall k :: k in t.oauths ==> k in s.oauths && t.oauths[k] == s.oauths[k].(deleting := t.oauths[k].deleting))
    && (forall k :: k in t.oauths && s.oauths[k].deleting ==> t.oauths[k].deleting)
  }

  lemma ConfigsWentTwice(s: Hub, t: Hub, u: Hub)
    requires ConfigsWent(s, t) && ConfigsWent(t, u)
    ensures ConfigsWent(s, u)
    ensures NamedByRealm(s) ==> NamedByRealm(t)
  {
  }

  /** The ClusterOAuths that are not concerned stay as they are. */
  ghost predicate OthersStay(s: Hub, t: Hub, cluster: string, owners: seq<string>) {
    forall k :: k in s.oauths && !Owned(s, k, cluster, owners) ==> k in t.oauths && t.oauths[k] == s.oauths[k]
  }

  /** Secrets and ClusterOAuths of other clusters stay as they are. */
  ghost predicate SameElsewhere(s: Hub, t: Hub, cluster: string) {
    && (forall k :: k in s.secrets && k.namespace != cluster ==> k in t.secrets && t.secrets[k] == s.secrets[k])
    && (forall k :: k in s.oauths && k.namespace != cluster ==> k in t.oauths && t.oauths[k] == s.oauths[k])
  }

  /** Secrets and ClusterOAuths of the decided clusters stay as they are. */
  ghost predicate SameDecided(s: Hub, t: Hub, decisions: seq<string>) {
    && (forall k :: k in s.secrets && k.namespace in decisions ==> k in t.secrets && t.secrets[k] == s.secrets[k])
    && (forall k :: k in s.oauths && k.namespace in decisions ==> k in t.oauths && t.oauths[k] == s.oauths[k])
  }

  lemma SameElsewhereTwice(s: Hub, t: Hub, u: Hub, cluster: string)
    requires SameElsewhere(s, t, cluster) && SameElsewhere(t, u, cluster)
    ensures SameElsewhere(s, u, cluster)
  {
  }

  lemma SameDecidedThen(s: Hub, t: Hub, u: Hub, decisions: seq<string>, cluster: string)
    requires SameDecided(s, t, decisions) && SameElsewhere(t, u, cluster) && cluster !in decisions
    ensures SameDecided(s, u, decisions)
  {
  }

  predicate ConfigDeletion(a: Action) {
    a.ByPlacement? && (a.p.DeleteSecret? || a.p.DeleteOAuth?)
  }

  method KeysIn<V>(m: map<Key, V>, namespace: string) returns (keys: seq<Key>)
    ensures forall k :: k in keys <==> k in m && k.namespace == namespace
  {
    keys := [];
    var todo := m.Keys;
    while todo != {}
      invariant todo <= m.Keys
      invariant forall k :: k in keys <==> k in m && k !in todo && k.namespace == namespace
      decreases |todo|
    {
      var k :| k in todo;
      todo := todo - {k};
      if k.namespace == namespace {
        keys := keys + [k];
      }
    }
  }

  lemma DeletionWrites(s: Hub, p: PlacementWrite)
    requires (p.DeleteSecret? || p.DeleteOAuth?) && PlacementMay(s, p)
    ensures p.DeleteSecret? ==> p.key !in PlacementWrites(s, p).secrets
    ensures p.DeleteOAuth? ==> p.key in PlacementWrites(s, p).oauths ==> PlacementWrites(s, p).oauths[p.key].deleting
    ensures ConfigsWent(s, PlacementWrites(s, p))
    ensures p.DeleteSecret? ==> PlacementWrites(s, p).oauths == s.oauths
    ensures SameElsewhere(s, PlacementWrites(s, p), p.key.namespace)
    ensures p.DeleteOAuth? ==> forall k :: k in s.oauths && k != p.key ==>
        k in PlacementWrites(s, p).oauths && PlacementWrites(s, p).oauths[k] == s.oauths[k]
  {
  }

  /** The writes of `run` deleted secrets of the cluster. */
  ghost predicate SecretsWent(s: Hub, run: seq<Action>, t: Hub, cluster: string) {
    && Leads(s, run, t) && (forall a <- run :: ConfigDeletion(a))
    && ConfigsWent(s, t) && t.oauths == s.oauths && SameElsewhere(s, t, cluster)
  }

  lemma SecretsWentThen(s: Hub, done: seq<Action>, t: Hub, run: seq<Action>, u: Hub, cluster: string)
    requires SecretsWent(s, done, t, cluster) && SecretsWent(t, run, u, cluster)
    ensures SecretsWent(s, done + run, u, cluster)
  {
    LeadsThen(s, done, t, run, u);
    ConfigsWentTwice(s, t, u);
    SameElsewhereTwice(s, t, u, cluster);
  }

  method DeleteClientSecret(store: HubStore, secret: Key) returns (ok: bool, ghost run: seq<Action>)
    modifies store
    ensures SecretsWent(old(store.hub), run, store.hub, secret.namespace)
    ensures if ok then secret !in store.hub.secrets else store.writes == 0
  {
    ok, run := true, [];
    if secret in store.hub.secrets {
      DeletionWrites(store.hub, DeleteSecret(secret));
      ok, run := store.Write(ByPlacement(DeleteSecret(secret)));
    }
  }

  /** The writes of `run` have deleted the secrets of the owned ones among `keys`, which are `owned`. */
  ghost predicate Collected(s: Hub, run: seq<Action>, t: Hub, keys: seq<Key>, owned: seq<Key>, cluster: string,
                            owners: seq<string>) {
    && SecretsWent(s, run, t, cluster) && (forall k <- keys :: k in s.oauths)
    && (forall k :: k in owned <==> k in keys && s.oauths[k].strategy.name in owners)
    && forall k <- owned :: k in s.oauths && SecretKey(s.oauths[k].realm, cluster) !in t.secrets
  }

  lemma CollectedThen(s: Hub, done: seq<Action>, t: Hub, keys: seq<Key>, owned: seq<Key>, key: Key, run: seq<Action>,
                      u: Hub, cluster: string, owners: seq<string>)
    requires Collected(s, done, t, keys, owned, cluster, owners) && SecretsWent(t, run, u, cluster)
    requires key in s.oauths && s.oauths[key].strategy.name in owners
    requires SecretKey(s.oauths[key].realm, cluster) !in u.secrets
    ensures Collected(s, done + run, u, keys + [key], owned + [key], cluster, owners)
  {
    SecretsWentThen(s, done, t, run, u, cluster);
  }

  lemma NotCollected(s: Hub, run: seq<Action>, t: Hub, keys: seq<Key>, owned: seq<Key>, key: Key, cluster: string,
                     owners: seq<string>)
    requires Collected(s, run, t, keys, owned, cluster, owners)
    requires key in s.oauths && s.oauths[key].strategy.name !in owners
    ensures Collected(s, run, t, keys + [key], owned, cluster, owners)
  {
  }

  /** Deletes the client secrets of the owned ClusterOAuths of a cluster, and tells which they are. */
  method DeleteClientSecrets(store: HubStore, cluster: string, owners: seq<string>)
    returns (owned: seq<Key>, ok: bool, ghost run: seq<Action>)
    modifies store
    ensures SecretsWent(old(store.hub), run, store.hub, cluster)
    ensures ok ==> forall k :: k in owned <==> k in store.hub.oauths && Owned(store.hub, k, cluster, owners)
    ensures if ok then SecretsGone(old(store.hub), store.hub, cluster, owners) else store.writes == 0
  {
    ghost var s0 := store.hub;
    var listed := store.hub.oauths;
    var keys := KeysIn(listed, cluster);
    owned, run, ok := [], [], true;
    for i := 0 to |keys|
      invariant Collected(s0, run, store.hub, keys[..i], owned, cluster, owners)
    {
      assert keys[i] in keys && keys[..i + 1] == keys[..i] + [keys[i]];
      var clusterOAuth := listed[keys[i]];
      if clusterOAuth.strategy.name in owners {
        ghost var s, done := store.hub, run;
        ok, run := DeleteClientSecret(store, SecretKey(clusterOAuth.realm, cluster));
        if !ok {
          SecretsWentThen(s0, done, s, run, store.hub, cluster);
          run := done + run;
          return;
        }
        CollectedThen(s0, done, s, keys[..i], owned, keys[i], run, store.hub, cluster, owners);
        owned := owned + [keys[i]];
        run := done + run;
      } else {
        NotCollected(s0, run, store.hub, keys[..i], owned, keys[i], cluster, owners);
      }
    }
    assert keys[..|keys|] == keys;
  }

  /** Those of the given ClusterOAuths that are left are being deleted. */
  ghost predicate AllMarked(s: Hub, owned: seq<Key>) {
    forall k <- owned :: k in s.oauths ==> s.oauths[k].deleting
  }

  lemma MarkedSoFar(s: Hub, t: Hub, owned: seq<Key>, i: nat)
    requires i < |owned| && AllMarked(s, owned[..i])
    requires ConfigsWent(s, t)
    requires owned[i] in t.oauths ==> t.oauths[owned[i]].deleting
    ensures AllMarked(t, owned[..i + 1])
  {
  }

  /** Issues the deletion of each of the given ClusterOAuths. */
  method DeleteOAuths(store: HubStore, owned: seq<Key>, ghost cluster: string)
    returns (ok: bool, ghost run: seq<Action>)
    requires forall k <- owned :: k.namespace == cluster
    modifies store
    ensures SameElsewhere(old(store.hub), store.hub, cluster)
    ensures Leads(old(store.hub), run, store.hub) && forall a <- run :: ConfigDeletion(a)
    ensures if ok then AllMarked(store.hub, owned) else store.writes == 0
    ensures ConfigsWent(old(store.hub), store.hub) && store.hub.secrets == old(store.hub).secrets
    ensures forall k :: k in old(store.hub).oauths && k !in owned ==>
        k in store.hub.oauths && store.hub.oauths[k] == old(store.hub).oauths[k]
  {
    run, ok := [], true;
    for i := 0 to |owned|
      invariant SameElsewhere(old(store.hub), store.hub, cluster)
      invariant Leads(old(store.hub), run, store.hub) && forall a <- run :: ConfigDeletion(a)
      invariant ConfigsWent(old(store.hub), store.hub) && store.hub.secrets == old(store.hub).secrets
      invariant AllMarked(store.hub, owned[..i])
      invariant forall k :: k in old(store.hub).oauths && k !in owned ==>
          k in store.hub.oauths && store.hub.oauths[k] == old(store.hub).oauths[k]
    {
      if owned[i] in store.hub.oauths {
        ghost var s, done := store.hub, run;
        assert owned[i] in owned;
        DeletionWrites(s, DeleteOAuth(owned[i]));
        ok, run := store.Write(ByPlacement(DeleteOAuth(owned[i])));
        SameElsewhereTwice(old(store.hub), s, store.hub, cluster);
        LeadsThen(old(store.hub), done, s, run, store.hub);
        run := done + run;
        if !ok {
          return;
        }
        MarkedSoFar(s, store.hub, owned, i);
      } else {
        MarkedSoFar(store.hub, store.hub, owned, i);
      }
    }
    assert owned[..|owned|] == owned;
  }

  /** deleteClusterOAuthConfig: without a failing write the client secrets are gone, every owned ClusterOAuth
      of the cluster is gone or being deleted, and it ends with Done exactly when none is left. */
  method DeleteClusterOAuthConfig(store: HubStore, cluster: string, owners: seq<string>)
    returns (outcome: Outcome, ghost run: seq<Action>)
    requires NamedByRealm(store.hub)
    modifies store
    ensures outcome in {Done, Requeue, Failed}
    ensures Leads(old(store.hub), run, store.hub) && forall a <- run :: ConfigDeletion(a)
    ensures ConfigsWent(old(store.hub), store.hub) && OthersStay(old(store.hub), store.hub, cluster, owners)
    ensures SameElsewhere(old(store.hub), store.hub, cluster)
    ensures NamedByRealm(store.hub)
    ensures if outcome.Failed? then store.writes == 0 else outcome.Done? <==> NoOAuthOwned(store.hub, cluster, owners)
    ensures !outcome.Failed? ==>
        OwnedMarked(store.hub, cluster, owners) && SecretsGone(old(store.hub), store.hub, cluster, owners)
  {
    var listed := store.hub.oauths;
    var owned, ok;
    owned, ok, run := DeleteClientSecrets(store, cluster, owners);
    if !ok {
      return Failed, run;
    }
    ghost var s, done := store.hub, run;
    ok, run := DeleteOAuths(store, owned, cluster);
    LeadsThen(old(store.hub), done, s, run, store.hub);
    ConfigsWentTwice(old(store.hub), s, store.hub);
    SameElsewhereTwice(old(store.hub), s, store.hub, cluster);
    run := done + run;
    if !ok {
      return Failed, run;
    }
    outcome := AwaitOAuths(store, owned, listed, cluster);
    OwnedLeft(listed, store.hub, owned, cluster, owners);
  }

  /** The loop that looks for a ClusterOAuth that is still there. */
  method AwaitOAuths(store: HubStore, owned: seq<Key>, listed: map<Key, ClusterOAuth>, cluster: string)
    returns (outcome: Outcome)
    requires forall k <- owned :: k in listed && k == OAuthKey(listed[k].realm, cluster)
    ensures outcome == if forall k <- owned :: k !in store.hub.oauths then Done else Requeue
  {
    for i := 0 to |owned|
      invariant forall j :: 0 <= j < i ==> owned[j] !in store.hub.oauths
    {
      assert owned[i] in owned;
      if OAuthKey(listed[owned[i]].realm, cluster) in store.hub.oauths {
        return Requeue;
      }
    }
    outcome := Done;
  }

  lemma OwnedLeft(listed: map<Key, ClusterOAuth>, t: Hub, owned: seq<Key>, cluster: string, owners: seq<string>)
    requires forall k :: k in owned <==> k in listed && k.namespace == cluster && listed[k].strategy.name in owners
    requires forall k :: k in t.oauths ==> k in listed && t.oauths[k].strategy == listed[k].strategy
    ensures (forall k <- owned :: k !in t.oauths) <==> NoOAuthOwned(t, cluster, owners)
  {
  }

  // ----- deleting what the placement no longer selects -----

  method InPlacementDecision(cluster: string, decisions: seq<string>) returns (found: bool)
    ensures found <==> cluster in decisions
  {
    for i := 0 to |decisions|
      invariant cluster !in decisions[..i]
    {
      if decisions[i] == cluster {
        return true;
      }
    }
    return false;
  }

  /** The listing of the DexClients of a namespace with a strategy type label. */
  method ListDexClients(m: map<Key, DexClient>, namespace: string, stype: StrategyType) returns (keys: seq<Key>)
    ensures forall k :: k in keys <==> k in m && k.namespace == namespace && m[k].stype == stype
  {
    var all := KeysIn(m, namespace);
    keys := [];
    for i := 0 to |all|
      invariant forall k :: k in keys <==> k in all[..i] && m[k].stype == stype
    {
      if m[all[i]].stype == stype {
        keys := keys + [all[i]];
      }
    }
  }

  /** Between `s` and `t`, some DexClients of the list went or were marked. */
  ghost predicate ClientsWent(s: Hub, t: Hub, gone: seq<Key>) {
    && t == s.(dexClients := t.dexClients)
    && (forall k :: k in t.dexClients ==>
        k in s.dexClients && t.dexClients[k] == s.dexClients[k].(deleting := t.dexClients[k].deleting))
    && (forall k :: k in t.dexClients && s.dexClients[k].deleting ==> t.dexClients[k].deleting)
    && (forall k :: k in s.dexClients && k !in gone ==> k in t.dexClients && t.dexClients[k] == s.dexClients[k])
  }

  predicate ClientMarked(s: Hub, k: Key) {
    k in s.dexClients ==> s.dexClients[k].deleting
  }

  lemma DeleteClientWrite(s: Hub, p: PlacementWrite, gone: seq<Key>)
    requires p.DeleteDexClient? && PlacementMay(s, p) && p.key in gone
    ensures ClientsWent(s, PlacementWrites(s, p), gone) && ClientMarked(PlacementWrites(s, p), p.key)
  {
  }

  predicate ClientDeletion(a: Action, gone: seq<Key>, stype: StrategyType, owners: seq<string>) {
    a.ByPlacement? && a.p.DeleteDexClient? && a.p.key in gone && a.p.stype == stype && a.p.owners == owners
  }

  /** The DexClient, if it is there, may be deleted. */
  predicate Cleared(s: Hub, key: Key, stype: StrategyType, owners: seq<string>) {
    key in s.dexClients ==> s.dexClients[key].stype == stype && NoOAuthOwned(s, s.dexClients[key].cluster, owners)
  }

  method DeleteListed(store: HubStore, key: Key, ghost gone: seq<Key>, stype: StrategyType, owners: seq<string>)
    returns (ok: bool, ghost run: seq<Action>)
    requires key in gone && Cleared(store.hub, key, stype, owners)
    modifies store
    ensures Leads(old(store.hub), run, store.hub) && ClientsWent(old(store.hub), store.hub, gone)
    ensures forall a <- run :: ClientDeletion(a, gone, stype, owners)
    ensures if ok then ClientMarked(store.hub, key) else store.writes == 0
  {
    run, ok := [], true;
    if key in store.hub.dexClients {
      var p := DeleteDexClient(key, stype, owners);
      DeleteClientWrite(store.hub, p, gone);
      ok, run := store.Write(ByPlacement(p));
    }
  }

  lemma ClientsWentTwice(s: Hub, t: Hub, u: Hub, gone: seq<Key>)
    requires ClientsWent(s, t, gone) && ClientsWent(t, u, gone)
    ensures ClientsWent(s, u, gone)
  {
  }

  lemma StillMarked(s: Hub, t: Hub, gone: seq<Key>, i: nat)
    requires i < |gone| && ClientsWent(s, t, gone) && ClientMarked(t, gone[i])
    requires forall k <- gone[..i] :: ClientMarked(s, k)
    ensures forall k <- gone[..i + 1] :: ClientMarked(t, k)
  {
    assert gone[..i + 1] == gone[..i] + [gone[i]];
  }

  lemma StillCleared(s: Hub, t: Hub, gone: seq<Key>, key: Key, stype: StrategyType, owners: seq<string>)
    requires ClientsWent(s, t, gone) && Cleared(s, key, stype, owners)
    ensures Cleared(t, key, stype, owners)
  {
  }

  /** Issues the deletion of each DexClient of the list, whose clusters have been cleared. */
  method DeleteDexClients(store: HubStore, gone: seq<Key>, stype: StrategyType, owners: seq<string>)
    returns (ok: bool, ghost run: seq<Action>)
    requires forall k <- gone :: Cleared(store.hub, k, stype, owners)
    modifies store
    ensures Leads(old(store.hub), run, store.hub) && ClientsWent(old(store.hub), store.hub, gone)
    ensures forall a <- run :: ClientDeletion(a, gone, stype, owners)
    ensures if ok then forall k <- gone :: ClientMarked(store.hub, k) else store.writes == 0
  {
    run, ok := [], true;
    for i := 0 to |gone|
      invariant Leads(old(store.hub), run, store.hub) && ClientsWent(old(store.hub), store.hub, gone)
      invariant forall a <- run :: ClientDeletion(a, gone, stype, owners)
      invariant forall k <- gone[..i] :: ClientMarked(store.hub, k)
    {
      ghost var s, done := store.hub, run;
      StillCleared(old(store.hub), s, gone, gone[i], stype, owners);
      ok, run := DeleteListed(store, gone[i], gone, stype, owners);
      LeadsThen(old(store.hub), done, s, run, store.hub);
      ClientsWentTwice(old(store.hub), s, store.hub, gone);
      run := done + run;
      if !ok {
        return;
      }
      StillMarked(s, store.hub, gone, i);
    }
    assert gone[..|gone|] == gone;
  }

  /** The pass waits for ClusterOAuths of the cluster, all of them being deleted. */
  ghost predicate Waited(s: Hub, cluster: string, decisions: seq<string>, owners: seq<string>, deleting: bool) {
    && (cluster !in decisions || deleting)
    && !NoOAuthOwned(s, cluster, owners) && OwnedMarked(s, cluster, owners)
  }

  /** The writes of `run` have cleared clusters that are not decided, or any when the realm goes. */
  ghost predicate Clearing(s: Hub, run: seq<Action>, t: Hub, decisions: seq<string>, deleting: bool) {
    && Leads(s, run, t) && ConfigsWent(s, t) && NamedByRealm(t)
    && (forall a <- run :: ConfigDeletion(a))
    && (deleting || SameDecided(s, t, decisions))
  }

  lemma ClearingThen(s: Hub, done: seq<Action>, t: Hub, run: seq<Action>, u: Hub, decisions: seq<string>,
                     deleting: bool, cluster: string)
    requires Clearing(s, done, t, decisions, deleting) && (cluster !in decisions || deleting)
    requires Leads(t, run, u) && ConfigsWent(t, u) && NamedByRealm(u) && forall a <- run :: ConfigDeletion(a)
    requires SameElsewhere(t, u, cluster)
    ensures Clearing(s, done + run, u, decisions, deleting)
  {
    LeadsThen(s, done, t, run, u);
    ConfigsWentTwice(s, t, u);
    if !deleting {
      SameDecidedThen(s, t, u, decisions, cluster);
    }
  }

  /** `gone` are those of `listed` that have to go, and their clusters are cleared. */
  ghost predicate ClearedOf(s: Hub, listed: seq<Key>, gone: seq<Key>, decisions: seq<string>, owners: seq<string>,
                            deleting: bool) {
    && (forall k <- listed :: k in s.dexClients)
    && (forall k :: k in gone <==> k in listed && (s.dexClients[k].cluster !in decisions || deleting))
    && (forall k :: k in gone ==> NoOAuthOwned(s, s.dexClients[k].cluster, owners))
  }

  lemma ClearedNext(s: Hub, t: Hub, listed: seq<Key>, gone: seq<Key>, key: Key, decisions: seq<string>,
                    owners: seq<string>, deleting: bool)
    requires ClearedOf(s, listed, gone, decisions, owners, deleting) && ConfigsWent(s, t)
    requires key in s.dexClients && (s.dexClients[key].cluster !in decisions || deleting)
    requires NoOAuthOwned(t, s.dexClients[key].cluster, owners)
    ensures ClearedOf(t, listed + [key], gone + [key], decisions, owners, deleting)
  {
  }

  lemma NotCleared(s: Hub, listed: seq<Key>, gone: seq<Key>, key: Key, decisions: seq<string>, owners: seq<string>)
    requires ClearedOf(s, listed, gone, decisions, owners, false)
    requires key in s.dexClients && s.dexClients[key].cluster in decisions
    ensures ClearedOf(s, listed + [key], gone, decisions, owners, false)
  {
  }

  /** The clusters of the DexClients that have to go, cleared one by one. */
  method ClearObsolete(store: HubStore, listed: seq<Key>, decisions: seq<string>, owners: seq<string>, deleting: bool)
    returns (outcome: Outcome, gone: seq<Key>, ghost run: seq<Action>)
    requires NamedByRealm(store.hub) && forall k :: k in listed ==> k in store.hub.dexClients
    modifies store
    ensures outcome in {Done, Requeue, Failed}
    ensures Clearing(old(store.hub), run, store.hub, decisions, deleting)
    ensures outcome.Failed? ==> store.writes == 0
    ensures outcome.Requeue? ==>
        exists k <- listed :: Waited(store.hub, store.hub.dexClients[k].cluster, decisions, owners, deleting)
    ensures outcome.Done? ==> ClearedOf(store.hub, listed, gone, decisions, owners, deleting)
  {
    ghost var s0 := store.hub;
    var clients := store.hub.dexClients;
    run, gone := [], [];
    for i := 0 to |listed|
      invariant Clearing(s0, run, store.hub, decisions, deleting)
      invariant ClearedOf(store.hub, listed[..i], gone, decisions, owners, deleting)
    {
      assert listed[i] in listed && listed[..i + 1] == listed[..i] + [listed[i]];
      var cluster := clients[listed[i]].cluster;
      var found := InPlacementDecision(cluster, decisions);
      if !found || deleting {
        ghost var s, done := store.hub, run;
        outcome, run := DeleteClusterOAuthConfig(store, cluster, owners);
        ClearingThen(s0, done, s, run, store.hub, decisions, deleting, cluster);
        run := done + run;
        if !outcome.Done? {
          return;
        }
        ClearedNext(s, store.hub, listed[..i], gone, listed[i], decisions, owners, deleting);
        gone := gone + [listed[i]];
      } else {
        NotCleared(store.hub, listed[..i], gone, listed[i], decisions, owners);
      }
    }
    assert listed[..|listed|] == listed;
    outcome := Done;
  }

  /** Only what the placement controller keeps in step changes in its passes. */
  predicate OnlyConfigs(s: Hub, t: Hub) {
    t == s.(secrets := t.secrets, dexClients := t.dexClients, oauths := t.oauths)
  }

  /** ClusterOAuths and DexClients that stay keep their finalizer, and their deletion mark if they have it. */
  ghost predicate KeepsLife(s: Hub, t: Hub) {
    && (forall k :: k in s.oauths && k in t.oauths ==>
          t.oauths[k].finalizer == s.oauths[k].finalizer && (s.oauths[k].deleting ==> t.oauths[k].deleting))
    && (forall k :: k in s.dexClients && k in t.dexClients ==>
          t.dexClients[k].finalizer == s.dexClients[k].finalizer &&
          (s.dexClients[k].deleting ==> t.dexClients[k].deleting))
  }

  /** DexClients stay what they are, until they are gone. */
  ghost predicate OnlyMarked(s: Hub, t: Hub) {
    forall k :: k in t.dexClients ==>
      k in s.dexClients && t.dexClients[k] == s.dexClients[k].(deleting := t.dexClients[k].deleting)
  }

  /** What deleteObsoleteConfigs leaves alone: DexClients that are not obsolete and, for a live realm,
      the secrets and ClusterOAuths of the decided clusters. */
  ghost predicate OnlyObsolete(s: Hub, t: Hub, realm: Key, strategy: Key, placement: Key)
    requires realm in s.realms && strategy in s.strategies && placement in s.placements
  {
    && OnlyConfigs(s, t) && (NamedByRealm(s) ==> NamedByRealm(t)) && KeepsLife(s, t)
    && (forall k :: k in t.oauths ==> k in s.oauths && t.oauths[k].strategy == s.oauths[k].strategy)
    && (forall k :: k in s.dexClients && !Obsolete(s, k, realm, strategy, placement) ==>
          k in t.dexClients && t.dexClients[k] == s.dexClients[k])
    && OnlyMarked(s, t)
    && (s.realms[realm].deleting || SameDecided(s, t, s.placements[placement].decisions))
  }

  /** deleteObsoleteConfigs: without a failing write it ends with Done exactly when no DexClient of
      this type is obsolete: none of a cluster that is not decided, and none at all for a realm in
      deletion. */
  method DeleteObsoleteConfigs(store: HubStore, realm: Key, strategy: Key, placement: Key)
    returns (outcome: Outcome, ghost run: seq<Action>)
    requires NamedByRealm(store.hub)
    requires realm in store.hub.realms && strategy in store.hub.strategies && placement in store.hub.placements
    modifies store
    ensures outcome in {Done, Requeue, Failed}
    ensures Leads(old(store.hub), run, store.hub) && OnlyObsolete(old(store.hub), store.hub, realm, strategy, placement)
    ensures forall a <- run :: ObsoleteDeletion(old(store.hub), a, realm, strategy, placement)
    ensures if outcome.Failed? then store.writes == 0
            else outcome.Done? <==> NoneObsolete(store.hub, realm, strategy, placement)
    ensures outcome.Requeue? ==> Advanced(store.hub, realm, strategy, placement)
  {
    var hub := store.hub;
    var stype, p := hub.strategies[strategy].stype, hub.placements[placement];
    var listed := ListDexClients(hub.dexClients, DexNamespace(hub, realm), stype);
    var gone;
    outcome, gone, run := ClearObsolete(store, listed, p.decisions, p.owners, hub.realms[realm].deleting);
    if !outcome.Done? {
      OnlyObsoleteWent(hub, store.hub, store.hub, [], realm, strategy, placement);
      if outcome.Requeue? {
        WaitsForCluster(hub, store.hub, listed, realm, strategy, placement);
      }
      return;
    }
    ghost var s, done := store.hub, run;
    outcome, run := DeleteAndAwait(store, gone, stype, p.owners);
    LeadsThen(hub, done, s, run, store.hub);
    DeletedObsolete(hub, s, store.hub, listed, gone, realm, strategy, placement);
    ObsoleteWrites(hub, s, gone, done, run, realm, strategy, placement);
    if !outcome.Failed? {
      WaitsForClients(s, store.hub, gone, realm, strategy, placement);
    }
    run := done + run;
  }

  lemma DeletedObsolete(s: Hub, t: Hub, u: Hub, listed: seq<Key>, gone: seq<Key>, realm: Key, strategy: Key,
                        placement: Key)
    requires realm in s.realms && strategy in s.strategies && placement in s.placements
    requires ConfigsWent(s, t) && NamedByRealm(t) && ClientsWent(t, u, gone)
    requires s.realms[realm].deleting || SameDecided(s, t, s.placements[placement].decisions)
    requires forall k :: k in listed <==>
        k in s.dexClients && k.namespace == DexNamespace(s, realm) &&
            s.dexClients[k].stype == s.strategies[strategy].stype
    requires forall k :: k in gone <==>
        k in listed && (s.dexClients[k].cluster !in s.placements[placement].decisions || s.realms[realm].deleting)
    ensures OnlyObsolete(s, u, realm, strategy, placement)
    ensures (forall k <- gone :: k !in u.dexClients) <==> NoneObsolete(u, realm, strategy, placement)
    ensures forall k :: k in gone <==> k in s.dexClients && Obsolete(s, k, realm, strategy, placement)
    ensures forall k :: k in gone <==> k in t.dexClients && Obsolete(t, k, realm, strategy, placement)
  {
    ObsoleteAreGone(t, u, listed, gone, realm, strategy, placement);
    OnlyObsoleteWent(s, t, u, gone, realm, strategy, placement);
  }

  lemma WaitsForCluster(s: Hub, t: Hub, listed: seq<Key>, realm: Key, strategy: Key, placement: Key)
    requires realm in s.realms && strategy in s.strategies && placement in s.placements && ConfigsWent(s, t)
    requires forall k :: k in listed ==>
        k in s.dexClients && k.namespace == DexNamespace(s, realm) &&
            s.dexClients[k].stype == s.strategies[strategy].stype
    requires var p := s.placements[placement];
             exists k <- listed :: Waited(t, t.dexClients[k].cluster, p.decisions, p.owners, s.realms[realm].deleting)
    ensures Advanced(t, realm, strategy, placement) && !NoneObsolete(t, realm, strategy, placement)
  {
    var p := s.placements[placement];
    var k :| k in listed && Waited(t, t.dexClients[k].cluster, p.decisions, p.owners, s.realms[realm].deleting);
    assert ClusterWaits(t, k, realm, strategy, placement);
  }

  lemma WaitsForClients(s: Hub, t: Hub, gone: seq<Key>, realm: Key, strategy: Key, placement: Key)
    requires realm in s.realms && strategy in s.strategies && placement in s.placements && ClientsWent(s, t, gone)
    requires forall k :: k in gone <==> k in s.dexClients && Obsolete(s, k, realm, strategy, placement)
    requires forall k <- gone :: ClientMarked(t, k)
    ensures Advanced(t, realm, strategy, placement)
  {
    forall k | k in t.dexClients && Obsolete(t, k, realm, strategy, placement) ensures t.dexClients[k].deleting {
      assert k in gone;
    }
  }

  lemma OnlyObsoleteWent(s: Hub, t: Hub, u: Hub, gone: seq<Key>, realm: Key, strategy: Key, placement: Key)
    requires realm in s.realms && strategy in s.strategies && placement in s.placements
    requires ConfigsWent(s, t) && (NamedByRealm(s) ==> NamedByRealm(t)) && ClientsWent(t, u, gone)
    requires s.realms[realm].deleting || SameDecided(s, t, s.placements[placement].decisions)
    requires forall k :: k in gone ==> k in s.dexClients && Obsolete(s, k, realm, strategy, placement)
    ensures OnlyObsolete(s, u, realm, strategy, placement)
  {
    WentKeepsLife(s, t, u, gone);
    assert s.realms[realm].deleting || SameDecided(s, u, s.placements[placement].decisions);
  }

  lemma WentKeepsLife(s: Hub, t: Hub, u: Hub, gone: seq<Key>)
    requires ConfigsWent(s, t) && ClientsWent(t, u, gone)
    ensures forall k :: k in u.oauths ==> k in s.oauths && u.oauths[k].strategy == s.oauths[k].strategy
    ensures KeepsLife(s, u) && u == s.(secrets := t.secrets, dexClients := u.dexClients, oauths := t.oauths)
  {
  }

  /** The deletions, then the look whether they have completed. */
  method DeleteAndAwait(store: HubStore, gone: seq<Key>, stype: StrategyType, owners: seq<string>)
    returns (outcome: Outcome, ghost run: seq<Action>)
    requires forall k :: k in gone && k in store.hub.dexClients ==>
               store.hub.dexClients[k].stype == stype &&
                   NoOAuthOwned(store.hub, store.hub.dexClients[k].cluster, owners)
    modifies store
    ensures Leads(old(store.hub), run, store.hub) && ClientsWent(old(store.hub), store.hub, gone)
    ensures forall a <- run :: ClientDeletion(a, gone, stype, owners)
    ensures if outcome.Failed? then store.writes == 0
            else outcome == if forall k <- gone :: k !in store.hub.dexClients then Done else Requeue
    ensures !outcome.Failed? ==> forall k <- gone :: ClientMarked(store.hub, k)
  {
    var ok;
    ok, run := DeleteDexClients(store, gone, stype, owners);
    if !ok {
      return Failed, run;
    }
    outcome := AwaitClients(store, gone);
  }

  lemma ObsoleteWrites(s: Hub, t: Hub, gone: seq<Key>, first: seq<Action>, second: seq<Action>, realm: Key,
                       strategy: Key, placement: Key)
    requires realm in s.realms && strategy in s.strategies && placement in s.placements && t.dexClients == s.dexClients
    requires forall k <- gone :: k in s.dexClients && Obsolete(s, k, realm, strategy, placement)
    requires forall a <- first :: ConfigDeletion(a)
    requires forall a <- second :: ClientDeletion(a, gone, s.strategies[strategy].stype, s.placements[placement].owners)
    ensures forall a <- first + second :: ObsoleteDeletion(s, a, realm, strategy, placement)
  {
  }

  /** The loop that looks for a DexClient that is still there. */
  method AwaitClients(store: HubStore, gone: seq<Key>) returns (outcome: Outcome)
    ensures outcome == if forall k <- gone :: k !in store.hub.dexClients then Done else Requeue
  {
    for i := 0 to |gone|
      invariant forall j :: 0 <= j < i ==> gone[j] !in store.hub.dexClients
    {
      if gone[i] in store.hub.dexClients {
        assert gone[i] in gone;
        return Requeue;
      }
    }
    outcome := Done;
  }

  /** The DexClients to be deleted are the obsolete ones. */
  lemma ObsoleteAreGone(s: Hub, t: Hub, listed: seq<Key>, gone: seq<Key>, realm: Key, strategy: Key, placement: Key)
    requires realm in s.realms && strategy in s.strategies && placement in s.placements
    requires forall k :: k in listed <==>
        k in s.dexClients && k.namespace == DexNamespace(s, realm) &&
            s.dexClients[k].stype == s.strategies[strategy].stype
    requires forall k :: k in gone ==> k in listed
    requires forall k :: k in listed ==>
        (k in gone <==> s.dexClients[k].cluster !in s.placements[placement].decisions || s.realms[realm].deleting)
    requires ClientsWent(s, t, gone)
    ensures (forall k <- gone :: k !in t.dexClients) <==> NoneObsolete(t, realm, strategy, placement)
    ensures forall k :: k in gone <==> k in s.dexClients && Obsolete(s, k, realm, strategy, placement)
  {
    forall k | k in t.dexClients ensures Obsolete(t, k, realm, strategy, placement) <==> k in gone {
      assert k in s.dexClients;
    }
  }

  /** What a pass that waits has done: it waits for ClusterOAuths of one cluster, all of which are being
      deleted, or for the obsolete DexClients, all of which are being deleted. */
  ghost predicate Advanced(s: Hub, realm: Key, strategy: Key, placement: Key)
    requires realm in s.realms && strategy in s.strategies && placement in s.placements
  {
    || (exists k :: k in s.dexClients && ClusterWaits(s, k, realm, strategy, placement))
    || (forall k :: k in s.dexClients && Obsolete(s, k, realm, strategy, placement) ==> s.dexClients[k].deleting)
  }

  ghost predicate ClusterWaits(s: Hub, k: Key, realm: Key, strategy: Key, placement: Key)
    requires k in s.dexClients && realm in s.realms && strategy in s.strategies && placement in s.placements
  {
    && Obsolete(s, k, realm, strategy, placement)
    && !NoOAuthOwned(s, s.dexClients[k].cluster, s.placements[placement].owners)
    && OwnedMarked(s, s.dexClients[k].cluster, s.placements[placement].owners)
  }

  /** No DexClient is obsolete that was not before, and no ClusterOAuth of the owners is in its cluster that
      was not there before. */
  ghost predicate FewerObsolete(s: Hub, t: Hub, realm: Key, strategy: Key, placement: Key)
    requires realm in s.realms && strategy in s.strategies && placement in s.placements && OnlyConfigs(s, t)
  {
    forall k :: k in t.dexClients && Obsolete(t, k, realm, strategy, placement) ==>
      && k in s.dexClients && Obsolete(s, k, realm, strategy, placement)
      && t.dexClients[k].cluster == s.dexClients[k].cluster
      && OwnedFewer(s, t, t.dexClients[k].cluster, s.placements[placement].owners)
  }

  ghost predicate OwnedFewer(s: Hub, t: Hub, cluster: string, owners: seq<string>) {
    forall k :: k in t.oauths && Owned(t, k, cluster, owners) ==> k in s.oauths && Owned(s, k, cluster, owners)
  }

  lemma ObsoleteFewer(s: Hub, t: Hub, realm: Key, strategy: Key, placement: Key)
    requires realm in s.realms && strategy in s.strategies && placement in s.placements
    requires OnlyObsolete(s, t, realm, strategy, placement)
    ensures FewerObsolete(s, t, realm, strategy, placement)
  {
  }

  predicate NoneObsolete(s: Hub, realm: Key, strategy: Key, placement: Key)
    requires realm in s.realms && strategy in s.strategies && placement in s.placements
  {
    forall k :: k in s.dexClients ==> !Obsolete(s, k, realm, strategy, placement)
  }

  predicate Obsolete(s: Hub, k: Key, realm: Key, strategy: Key, placement: Key)
    requires k in s.dexClients && realm in s.realms && strategy in s.strategies && placement in s.placements
  {
    && k.namespace == DexNamespace(s, realm)
    && s.dexClients[k].stype == s.strategies[strategy].stype
    && (s.dexClients[k].cluster !in s.placements[placement].decisions || s.realms[realm].deleting)
  }

  /** The writes of DeleteObsoleteConfigs, in a pass that began in `s`. */
  predicate ObsoleteDeletion(s: Hub, a: Action, realm: Key, strategy: Key, placement: Key)
    requires realm in s.realms && strategy in s.strategies && placement in s.placements
  {
    || ConfigDeletion(a)
    || (a.ByPlacement? && a.p.DeleteDexClient?
        && a.p.key in s.dexClients && Obsolete(s, a.p.key, realm, strategy, placement)
        && a.p.stype == s.strategies[strategy].stype && a.p.owners == s.placements[placement].owners)
  }
}
