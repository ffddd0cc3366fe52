/** The passes of the AuthRealm controller for an AuthRealm in deletion: one stage per pass, each
    waiting for the one before. */
module AuthRealmTeardown {
  import opened Kube
  import opened Names
  import opened Hub
  import opened HubInvariant
  import opened PlacementSync

  /** What is left of a realm in deletion, first things first. */
  datatype Stage =
    | Clients
    | Servers
    | DexSpace
    | StrategyOf(t: StrategyType)
    | OperatorSpace
    | OperatorBinding
    | OperatorRole
    | Nothing

  function OperatorStage(s: Hub): Stage {
    if !NoLiveDexRealm(s) then Nothing
    else if OPERATOR_NAMESPACE in s.namespaces then OperatorSpace
    else if s.roleBinding.Some? then OperatorBinding
    else if s.role.Some? then OperatorRole
    else Nothing
  }

  function StageOf(s: Hub, realm: Key): Stage
    requires realm in s.realms
  {
    if !NoClients(s, realm) then Clients
    else if !NoServers(s, realm) then Servers
    else if DexNamespace(s, realm) in s.namespaces then DexSpace
    else if StrategyKey(realm, Backplane) in s.strategies then StrategyOf(Backplane)
    else if StrategyKey(realm, Hypershift) in s.strategies then StrategyOf(Hypershift)
    else OperatorStage(s)
  }

  /** Deletion of every Dex server of a namespace. */
  function ServersDeleted(m: map<Key, Life>, namespace: string): map<Key, Life> {
    map k | k in m && (k.namespace == namespace ==> m[k].finalizer) ::
        if k.namespace == namespace then m[k].(deleting := true) else m[k]
  }

  /** The hub after the deletions of a stage have been issued. */
  function IssuedAt(s: Hub, realm: Key, stage: Stage): Hub
    requires realm in s.realms
  {
    match stage
    case Clients => s
    case Servers => s.(dexServers := ServersDeleted(s.dexServers, DexNamespace(s, realm)))
    case DexSpace => s.(namespaces := DeletedLife(s.namespaces, DexNamespace(s, realm)))
    case StrategyOf(t) => s.(strategies := DeletedStrategy(s.strategies, StrategyKey(realm, t)))
    case OperatorSpace => s.(namespaces := DeletedLife(s.namespaces, OPERATOR_NAMESPACE))
    case OperatorBinding => s.(roleBinding := DeletedOne(s.roleBinding))
    case OperatorRole => s.(role := DeletedOne(s.role))
    case Nothing => s
  }

  /** Some Dex servers of the namespace went or were marked. */
  ghost predicate SomeServersDeleted(s: Hub, t: Hub, namespace: string) {
    && t == s.(dexServers := t.dexServers)
    && t.dexServers.Keys <= s.dexServers.Keys
    && forall k | k in s.dexServers && (k.namespace != namespace || (k in t.dexServers && !t.dexServers[k].deleting)) ::
         k in t.dexServers && t.dexServers[k] == s.dexServers[k]
  }

  /** What a pass for a realm in deletion does, with the way it ends: it waits after issuing the
      deletions of one stage, and lets the realm go when no stage is left. */
  ghost predicate Pass(s: Hub, t: Hub, realm: Key, outcome: Outcome)
    requires realm in s.realms
  {
    match outcome
    case Requeue => StageOf(s, realm) != Nothing && t == IssuedAt(s, realm, StageOf(s, realm))
    case Done => StageOf(s, realm) == Nothing && t == s.(realms := s.realms - {realm})
    case Failed => t == s || (StageOf(s, realm) == Servers && SomeServersDeleted(s, t, DexNamespace(s, realm)))
    case RequeueAfter => false
  }

  predicate ByRealm(run: seq<Action>) {
    forall a <- run :: a.ByAuthRealm?
  }

  /** The AuthRealm controller keeps the invariant of the hub, with nothing taken for granted. */
  lemma {:induction false} RealmRunKeeps(s: Hub, run: seq<Action>)
    requires Inv(s) && Legal(s, run) && ByRealm(run)
    ensures Inv(Run(s, run))
    decreases |run|
  {
    if run != [] {
      RealmKeeps(s, run[0].r);
      RealmRunKeeps(Apply(s, run[0]), run[1..]);
    }
  }

  // ----- the stages -----

  method DeleteDexServers(store: HubStore, realm: Key) returns (found: bool, ok: bool, ghost run: seq<Action>)
    requires TearingDown(store.hub, realm)
    modifies store
    ensures Leads(old(store.hub), run, store.hub) && ByRealm(run)
    ensures found <==> !NoServers(old(store.hub), realm)
    ensures !found ==> ok && store.hub == old(store.hub)
    ensures ok ==> store.hub == IssuedAt(old(store.hub), realm, Servers)
    ensures SomeServersDeleted(old(store.hub), store.hub, DexNamespace(old(store.hub), realm))
    ensures !ok ==> store.writes == 0
  {
    ghost var s0 := store.hub;
    var namespace := DexNamespace(store.hub, realm);
    var servers := KeysIn(store.hub.dexServers, namespace);
    found, ok, run := |servers| > 0, true, [];
    assert found ==> servers[0] in servers;
    for i := 0 to |servers|
      invariant Leads(s0, run, store.hub) && ByRealm(run) && TearingDown(store.hub, realm)
      invariant store.hub == s0.(dexServers := store.hub.dexServers)
      invariant i == 0 ==> store.hub == s0
      invariant Marked(s0.dexServers, store.hub.dexServers, servers[..i])
    {
      ghost var s, done := store.hub, run;
      assert servers[i] in servers;
      ok, run := store.Write(ByAuthRealm(DeleteDexServer(realm, servers[i])));
      LeadsThen(s0, done, s, run, store.hub);
      run := done + run;
      MarkedThen(s0.dexServers, s.dexServers, servers, i);
      if !ok {
        return;
      }
    }
    assert servers[..|servers|] == servers;
    assert store.hub.dexServers == ServersDeleted(s0.dexServers, namespace);
  }

  /** The listed servers have been deleted, the others are as they were. */
  ghost predicate Marked(m: map<Key, Life>, n: map<Key, Life>, keys: seq<Key>) {
    && (forall k :: k in n ==> k in m)
    && (forall k :: k in m ==> (k in n <==> (k in keys ==> m[k].finalizer)))
    && (forall k :: k in n ==> n[k] == if k in keys then m[k].(deleting := true) else m[k])
  }

  lemma MarkedThen(m: map<Key, Life>, n: map<Key, Life>, keys: seq<Key>, i: nat)
    requires i < |keys| && Marked(m, n, keys[..i])
    ensures Marked(m, DeletedLife(n, keys[i]), keys[..i + 1])
  {
    assert forall k :: k in keys[..i + 1] <==> k in keys[..i] || k == keys[i];
  }

  method ProcessDexServerDeletion(store: HubStore, realm: Key) returns (outcome: Outcome, ghost run: seq<Action>)
    requires realm in store.hub.realms && store.hub.realms[realm].deleting
    modifies store
    ensures Leads(old(store.hub), run, store.hub) && ByRealm(run)
    ensures outcome in {Done, Requeue, Failed} && (outcome.Failed? ==> store.writes == 0)
    ensures outcome.Done? ==> store.hub == old(store.hub) && NothingInDexNamespace(store.hub, realm)
    ensures !outcome.Done? ==> Pass(old(store.hub), store.hub, realm, outcome)
  {
    var namespace := DexNamespace(store.hub, realm);
    var clients := KeysIn(store.hub.dexClients, namespace);
    run := [];
    if |clients| != 0 {
      assert clients[0] in clients;
      return Requeue, run;
    }
    assert NoClients(store.hub, realm);
    var found, ok;
    found, ok, run := DeleteDexServers(store, realm);
    if !ok {
      return Failed, run;
    }
    if found {
      return Requeue, run;
    }
    if namespace in store.hub.namespaces {
      ghost var s, done := store.hub, run;
      ok, run := store.Write(ByAuthRealm(DeleteDexNamespace(realm)));
      LeadsThen(old(store.hub), done, s, run, store.hub);
      run := done + run;
      return if ok then Requeue else Failed, run;
    }
    outcome := Done;
  }

  method DeleteStrategy(store: HubStore, realm: Key, t: StrategyType) returns (outcome: Outcome, ghost run: seq<Action>)
    requires realm in store.hub.realms && store.hub.realms[realm].deleting && NothingInDexNamespace(store.hub, realm)
    modifies store
    ensures Leads(old(store.hub), run, store.hub) && ByRealm(run)
    ensures outcome in {Done, Requeue, Failed} && (outcome.Failed? ==> store.writes == 0)
    ensures outcome.Done? <==> StrategyKey(realm, t) !in old(store.hub).strategies
    ensures store.hub == if outcome.Requeue? then IssuedAt(old(store.hub), realm, StrategyOf(t)) else old(store.hub)
  {
    run := [];
    if StrategyKey(realm, t) in store.hub.strategies {
      var ok;
      ok, run := store.Write(ByAuthRealm(RealmWrite.DeleteStrategy(realm, t)));
      return if ok then Requeue else Failed, run;
    }
    outcome := Done;
  }

  lemma StrategyStage(s: Hub, realm: Key)
    requires realm in s.realms && NothingInDexNamespace(s, realm)
    ensures StageOf(s, realm) ==
              if StrategyKey(realm, Backplane) in s.strategies then StrategyOf(Backplane)
              else if StrategyKey(realm, Hypershift) in s.strategies then StrategyOf(Hypershift)
              else OperatorStage(s)
  {
  }

  method DeleteStrategies(store: HubStore, realm: Key) returns (outcome: Outcome, ghost run: seq<Action>)
    requires realm in store.hub.realms && store.hub.realms[realm].deleting && NothingInDexNamespace(store.hub, realm)
    modifies store
    ensures Leads(old(store.hub), run, store.hub) && ByRealm(run)
    ensures outcome in {Done, Requeue, Failed} && (outcome.Failed? ==> store.writes == 0)
    ensures outcome.Done? ==> store.hub == old(store.hub) && NoStrategies(store.hub, realm)
    ensures !outcome.Done? ==> Pass(old(store.hub), store.hub, realm, outcome)
  {
    StrategyStage(store.hub, realm);
    outcome, run := DeleteStrategy(store, realm, Backplane);
    if !outcome.Done? {
      return;
    }
    outcome, run := DeleteStrategy(store, realm, Hypershift);
  }

  /** The count of the AuthRealms that still need the Dex operator. */
  method LiveDexRealms(realms: map<Key, Realm>) returns (n: nat)
    ensures n == 0 <==> forall k :: k in realms ==> !realms[k].dex || realms[k].deleting
  {
    n := 0;
    var todo := realms.Keys;
    while todo != {}
      invariant todo <= realms.Keys
      invariant n == 0 <==> forall k :: k in realms && k !in todo ==> !realms[k].dex || realms[k].deleting
      decreases |todo|
    {
      var k :| k in todo;
      todo := todo - {k};
      if realms[k].dex && !realms[k].deleting {
        n := n + 1;
      }
    }
  }

  /** The hub after the deletion of what is left of the operator has been issued. */
  function OperatorIssued(s: Hub): Hub {
    match OperatorStage(s)
    case OperatorSpace => s.(namespaces := DeletedLife(s.namespaces, OPERATOR_NAMESPACE))
    case OperatorBinding => s.(roleBinding := DeletedOne(s.roleBinding))
    case OperatorRole => s.(role := DeletedOne(s.role))
    case _ => s
  }

  method DeleteDexOperator(store: HubStore) returns (outcome: Outcome, ghost run: seq<Action>)
    modifies store
    ensures Leads(old(store.hub), run, store.hub) && ByRealm(run)
    ensures outcome in {Done, Requeue, Failed} && (outcome.Failed? ==> store.writes == 0)
    ensures outcome.Done? <==> OperatorStage(old(store.hub)) == Nothing
    ensures !outcome.Requeue? ==> store.hub == old(store.hub)
    ensures outcome.Requeue? ==> store.hub == OperatorIssued(old(store.hub))
  {
    var live := LiveDexRealms(store.hub.realms);
    var ok;
    run := [];
    if live == 0 {
      if OPERATOR_NAMESPACE in store.hub.namespaces {
        ok, run := store.Write(ByAuthRealm(DeleteOperatorNamespace));
        return if ok then Requeue else Failed, run;
      }
      if store.hub.roleBinding.Some? {
        ok, run := store.Write(ByAuthRealm(DeleteRoleBinding));
        return if ok then Requeue else Failed, run;
      }
      if store.hub.role.Some? {
        ok, run := store.Write(ByAuthRealm(DeleteRole));
        return if ok then Requeue else Failed, run;
      }
    }
    outcome := Done;
  }

  method ProcessAuthRealmDeletion(store: HubStore, realm: Key) returns (outcome: Outcome, ghost run: seq<Action>)
    requires realm in store.hub.realms && store.hub.realms[realm].deleting
    modifies store
    ensures Leads(old(store.hub), run, store.hub) && ByRealm(run)
    ensures outcome.Done? ==> store.hub == old(store.hub) && StageOf(store.hub, realm) == Nothing
    ensures !outcome.Done? ==> Pass(old(store.hub), store.hub, realm, outcome)
    ensures outcome.Failed? ==> store.writes == 0
  {
    outcome, run := ProcessDexServerDeletion(store, realm);
    if !outcome.Done? {
      return;
    }
    ghost var done := run;
    outcome, run := DeleteStrategies(store, realm);
    LeadsThen(old(store.hub), done, old(store.hub), run, store.hub);
    run := done + run;
    if !outcome.Done? {
      return;
    }
    done := run;
    outcome, run := DeleteDexOperator(store);
    LeadsThen(old(store.hub), done, old(store.hub), run, store.hub);
    run := done + run;
  }

  /** Reconcile on an AuthRealm in deletion. */
  method Release(store: HubStore, realm: Key) returns (outcome: Outcome, ghost run: seq<Action>)
    requires realm in store.hub.realms && store.hub.realms[realm].deleting
    modifies store
    ensures Leads(old(store.hub), run, store.hub) && ByRealm(run)
    ensures Pass(old(store.hub), store.hub, realm, outcome) && (outcome.Failed? ==> store.writes == 0)
    ensures Inv(old(store.hub)) ==> Inv(store.hub)
  {
    outcome, run := ProcessAuthRealmDeletion(store, realm);
    if outcome.Done? {
      ghost var done := run;
      var ok;
      ok, run := store.Write(ByAuthRealm(ReleaseRealm(realm)));
      LeadsThen(old(store.hub), done, old(store.hub), run, store.hub);
      run := done + run;
      outcome := if ok then Done else Failed;
    }
    if Inv(old(store.hub)) {
      RealmRunKeeps(old(store.hub), run);
    }
  }
}
