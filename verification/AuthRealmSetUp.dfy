/** The passes of the AuthRealm controller for a live AuthRealm. */
module AuthRealmSetUp {
  import opened Kube
  import opened Names
  import opened Hub
  import opened HubInvariant
  import opened AuthRealmTeardown

  /** What a realm needs before its placements can be synced. */
  predicate SetUp(s: Hub, realm: Key) {
    && Managed(s, realm)
    && (s.realms[realm].dex ==>
          DexNamespace(s, realm) in s.namespaces && Key(DexNamespace(s, realm), DEX_SERVER) in s.dexServers)
    && StrategyKey(realm, Backplane) in s.strategies && StrategyKey(realm, Hypershift) in s.strategies
  }

  /** Nothing that was there has changed, apart from the finalizer of the realm. */
  ghost predicate OnlyAdds(s: Hub, t: Hub, realm: Key)
    requires realm in s.realms
  {
    && t == s.(realms := t.realms, namespaces := t.namespaces, dexServers := t.dexServers, strategies := t.strategies)
    && t.realms in {s.realms, FinalizedRealm(s.realms, realm)}
    && (forall k :: k in s.namespaces ==> k in t.namespaces && t.namespaces[k] == s.namespaces[k])
    && (forall k :: k in s.dexServers ==> k in t.dexServers && t.dexServers[k] == s.dexServers[k])
    && (forall k :: k in s.strategies ==> k in t.strategies && t.strategies[k] == s.strategies[k])
  }

  lemma Adds(s: Hub, r: RealmWrite, realm: Key)
    requires RealmMay(s, r) && realm in s.realms
    requires r in {FinalizeRealm(realm), CreateDexNamespace(realm), RealmWrite.CreateDexServer(realm, DEX_SERVER)} ||
        r.CreateStrategy?
    ensures OnlyAdds(s, RealmWrites(s, r), realm)
  {
  }

  lemma AddsTwice(s: Hub, t: Hub, u: Hub, realm: Key)
    requires realm in s.realms && OnlyAdds(s, t, realm) && realm in t.realms && OnlyAdds(t, u, realm)
    ensures OnlyAdds(s, u, realm)
  {
    assert FinalizedRealm(FinalizedRealm(s.realms, realm), realm) == FinalizedRealm(s.realms, realm);
  }

  /** A write of the set-up of a realm. */
  method Add(store: HubStore, realm: Key, r: RealmWrite) returns (ok: bool, ghost run: seq<Action>)
    requires RealmMay(store.hub, r) && realm in store.hub.realms
    requires r in {FinalizeRealm(realm), CreateDexNamespace(realm), RealmWrite.CreateDexServer(realm, DEX_SERVER)} ||
        r.CreateStrategy?
    modifies store
    ensures Leads(old(store.hub), run, store.hub) && ByRealm(run)
    ensures OnlyAdds(old(store.hub), store.hub, realm)
    ensures store.hub == if ok then RealmWrites(old(store.hub), r) else old(store.hub)
    ensures !ok ==> store.writes == 0
  {
    Adds(store.hub, r, realm);
    ok, run := store.Write(ByAuthRealm(r));
  }

  /** createDexServer: the namespace is there before it is known whether the server can be specified. */
  method CreateDexServer(store: HubStore, realm: Key, specified: bool) returns (ok: bool, ghost run: seq<Action>)
    requires Managed(store.hub, realm)
    modifies store
    ensures Leads(old(store.hub), run, store.hub) && ByRealm(run)
    ensures OnlyAdds(old(store.hub), store.hub, realm) && store.hub.realms == old(store.hub).realms
    ensures DexNamespace(store.hub, realm) in store.hub.namespaces || store.writes == 0
    ensures if ok then
              DexNamespace(store.hub, realm) in store.hub.namespaces
              && Key(DexNamespace(store.hub, realm), DEX_SERVER) in store.hub.dexServers
            else store.writes == 0 || !specified
    ensures !specified ==> !ok && store.hub.dexServers == old(store.hub).dexServers
    ensures SetUp(old(store.hub), realm) && store.hub.realms[realm].dex ==> store.hub == old(store.hub)
  {
    ok, run := true, [];
    if DexNamespace(store.hub, realm) !in store.hub.namespaces {
      ok, run := Add(store, realm, CreateDexNamespace(realm));
      if !ok {
        return;
      }
    }
    if !specified {
      return false, run;
    }
    ghost var s, done := store.hub, run;
    ok, run := Add(store, realm, RealmWrite.CreateDexServer(realm, DEX_SERVER));
    LeadsThen(old(store.hub), done, s, run, store.hub);
    AddsTwice(old(store.hub), s, store.hub, realm);
    run := done + run;
  }

  /** A strategy that is new has its type in its name, belongs to the realm, and refers to no placement yet. */
  ghost predicate NewStrategies(s: Hub, t: Hub, realm: Key) {
    forall k :: k in t.strategies && k !in s.strategies ==>
      var st := t.strategies[k];
      k == StrategyKey(realm, st.stype) && st == Strategy(st.stype, realm.name, "", false, false)
  }

  method CreateStrategy(store: HubStore, realm: Key, t: StrategyType) returns (ok: bool, ghost run: seq<Action>)
    requires Managed(store.hub, realm) && !t.Grc?
    modifies store
    ensures Leads(old(store.hub), run, store.hub) && ByRealm(run)
    ensures OnlyAdds(old(store.hub), store.hub, realm) &&
        store.hub == old(store.hub).(strategies := store.hub.strategies)
    ensures if ok then StrategyKey(realm, t) in store.hub.strategies else store.writes == 0
    ensures StrategyKey(realm, t) in old(store.hub).strategies ==> store.hub == old(store.hub)
    ensures NewStrategies(old(store.hub), store.hub, realm)
  {
    ok, run := true, [];
    if StrategyKey(realm, t) !in store.hub.strategies {
      ok, run := Add(store, realm, RealmWrite.CreateStrategy(realm, t));
    }
  }

  method CreateStrategies(store: HubStore, realm: Key) returns (ok: bool, ghost run: seq<Action>)
    requires Managed(store.hub, realm)
    modifies store
    ensures Leads(old(store.hub), run, store.hub) && ByRealm(run)
    ensures OnlyAdds(old(store.hub), store.hub, realm) &&
        store.hub == old(store.hub).(strategies := store.hub.strategies)
    ensures !ok ==> store.writes == 0
    ensures ok ==>
              && StrategyKey(realm, Backplane) in store.hub.strategies
              && StrategyKey(realm, Hypershift) in store.hub.strategies
    ensures NewStrategies(old(store.hub), store.hub, realm)
    ensures SetUp(old(store.hub), realm) ==> store.hub == old(store.hub)
  {
    ok, run := CreateStrategy(store, realm, Backplane);
    if ok {
      ghost var s, done := store.hub, run;
      ok, run := CreateStrategy(store, realm, Hypershift);
      LeadsThen(old(store.hub), done, s, run, store.hub);
      AddsTwice(old(store.hub), s, store.hub, realm);
      run := done + run;
    }
  }

  /** processAuthRealmUpdate; `installed` and `specified` say whether the Dex operator could be
      installed and the Dex server specified; without the latter the Dex namespace is there, and nothing
      in it. The realm holds its finalizer before anything of it
      exists, and a realm that is set up is left alone. */
  method ProcessAuthRealmUpdate(store: HubStore, realm: Key, installed: bool, specified: bool)
    returns (ok: bool, ghost run: seq<Action>)
    requires realm in store.hub.realms && !store.hub.realms[realm].deleting
    modifies store
    ensures Leads(old(store.hub), run, store.hub) && ByRealm(run)
    ensures OnlyAdds(old(store.hub), store.hub, realm)
    ensures store.hub == old(store.hub) || Managed(store.hub, realm)
    ensures if ok then SetUp(store.hub, realm) && (store.hub.realms[realm].dex ==> installed && specified)
            else store.writes == 0 || (store.hub.realms[realm].dex && !(installed && specified))
    ensures SetUp(old(store.hub), realm) ==> store.hub == old(store.hub)
    ensures Inv(old(store.hub)) ==> Inv(store.hub)
  {
    ok, run := SetUpRealm(store, realm, installed, specified);
    if Inv(old(store.hub)) {
      RealmRunKeeps(old(store.hub), run);
    }
  }

  method SetUpRealm(store: HubStore, realm: Key, installed: bool, specified: bool)
    returns (ok: bool, ghost run: seq<Action>)
    requires realm in store.hub.realms && !store.hub.realms[realm].deleting
    modifies store
    ensures Leads(old(store.hub), run, store.hub) && ByRealm(run)
    ensures OnlyAdds(old(store.hub), store.hub, realm)
    ensures store.hub == old(store.hub) || Managed(store.hub, realm)
    ensures if ok then SetUp(store.hub, realm) && (store.hub.realms[realm].dex ==> installed && specified)
            else store.writes == 0 || (store.hub.realms[realm].dex && !(installed && specified))
    ensures SetUp(old(store.hub), realm) ==> store.hub == old(store.hub)
  {
    ghost var s0 := store.hub;
    ok, run := Add(store, realm, FinalizeRealm(realm));
    if !ok {
      return;
    }
    ghost var s, done := store.hub, run;
    ok, run := SetUpManaged(store, realm, installed, specified);
    LeadsThen(s0, done, s, run, store.hub);
    AddsTwice(s0, s, store.hub, realm);
    run := done + run;
  }

  /** What comes after the finalizer: the Dex server, if the realm uses Dex, and the strategies. */
  method SetUpManaged(store: HubStore, realm: Key, installed: bool, specified: bool)
    returns (ok: bool, ghost run: seq<Action>)
    requires Managed(store.hub, realm)
    modifies store
    ensures Leads(old(store.hub), run, store.hub) && ByRealm(run)
    ensures OnlyAdds(old(store.hub), store.hub, realm) && store.hub.realms == old(store.hub).realms
    ensures if ok then SetUp(store.hub, realm) && (store.hub.realms[realm].dex ==> installed && specified)
            else store.writes == 0 || (store.hub.realms[realm].dex && !(installed && specified))
    ensures SetUp(old(store.hub), realm) ==> store.hub == old(store.hub)
  {
    if !store.hub.realms[realm].dex {
      ok, run := CreateStrategies(store, realm);
      return;
    }
    if !installed {
      return false, [];
    }
    ok, run := CreateDexServer(store, realm, specified);
    if !ok {
      return;
    }
    ghost var s, done := store.hub, run;
    ok, run := CreateStrategies(store, realm);
    LeadsThen(old(store.hub), done, s, run, store.hub);
    AddsTwice(old(store.hub), s, store.hub, realm);
    run := done + run;
  }

  /** Reconcile of the AuthRealm controller. `reported` says whether the update of the status is accepted. */
  method Reconcile(store: HubStore, realm: Key, installed: bool, specified: bool, reported: bool)
    returns (outcome: Outcome, ghost run: seq<Action>)
    requires Inv(store.hub)
    modifies store
    ensures Leads(old(store.hub), run, store.hub) && Inv(store.hub)
    ensures realm !in old(store.hub).realms ==> outcome.Done? && store.hub == old(store.hub)
    ensures realm in old(store.hub).realms && old(store.hub).realms[realm].deleting ==>
        Pass(old(store.hub), store.hub, realm, outcome)
    ensures realm in old(store.hub).realms && !old(store.hub).realms[realm].deleting ==>
        OnlyAdds(old(store.hub), store.hub, realm) &&
        match outcome
        case Done => reported && SetUp(store.hub, realm) &&
            (store.hub.realms[realm].dex ==> installed && specified)
        case Failed => !reported || store.writes == 0 || (store.hub.realms[realm].dex && !(installed && specified))
        case _ => false
  {
    if realm !in store.hub.realms {
      return Done, [];
    }
    if store.hub.realms[realm].deleting {
      outcome, run := Release(store, realm);
    } else {
      var ok;
      ok, run := ProcessAuthRealmUpdate(store, realm, installed, specified);
      outcome := if ok && reported then Done else Failed;
    }
  }
}
