/** The objects that the AuthRealm, Strategy, Placement and ClusterOAuth controllers share, and the
    API writes that each of them makes, with the facts it has established when it makes them. */
module Hub {
  import opened Kube
  import opened Names
  import ClusterState

  datatype Realm = Realm(dex: bool, subDomain: string, finalizer: bool, deleting: bool)

  /** `realm` is the name of the owning AuthRealm, in the same namespace; `placement` the name of the
      placement it refers to. */
  datatype Strategy = Strategy(stype: StrategyType, realm: string, placement: string, finalizer: bool, deleting: bool)

  /** `owners` are the owning strategies; `decisions` the clusters of its PlacementDecisions. */
  datatype Placement = Placement(owners: seq<string>, decisions: seq<string>, finalizer: bool, deleting: bool)

  datatype DexClient = DexClient(
    cluster: string, stype: StrategyType, clientId: string, secret: Key, redirect: string,
    finalizer: bool, deleting: bool)

  datatype ClusterOAuth = ClusterOAuth(
    realm: Key, strategy: Key, dexClient: Key, provider: ClusterState.Provider, finalizer: bool, deleting: bool)

  datatype Life = Life(finalizer: bool, deleting: bool)

  /** `hosted` are the hosted clusters, `hosts` the callback hosts known for the managed clusters;
      `appsURL` says whether the apps URL of the hub can be looked up. */
  datatype Hub = Hub(
    realms: map<Key, Realm>,
    strategies: map<Key, Strategy>,
    placements: map<Key, Placement>,
    dexClients: map<Key, DexClient>,
    secrets: map<Key, string>,
    oauths: map<Key, ClusterOAuth>,
    dexServers: map<Key, Life>,
    namespaces: map<string, Life>,
    roleBinding: Option<Life>,
    role: Option<Life>,
    hosted: set<string>,
    hosts: map<string, string>,
    appsURL: bool)

  function TypeOf(s: Hub, cluster: string): StrategyType {
    if cluster in s.hosted then Hypershift else Backplane
  }

  function DexNamespace(s: Hub, realm: Key): string
    requires realm in s.realms
  {
    DexServerNamespace(s.realms[realm].subDomain)
  }

  function DexClientKey(s: Hub, realm: Key, cluster: string): Key
    requires realm in s.realms
  {
    Key(DexNamespace(s, realm), DexClientName(realm.name, cluster))
  }

  function OAuthKey(realm: Key, cluster: string): Key {
    Key(cluster, ClusterOAuthName(realm))
  }

  function SecretKey(realm: Key, cluster: string): Key {
    Key(cluster, ClientSecretName(realm))
  }

  function StrategyKey(realm: Key, t: StrategyType): Key {
    Key(realm.namespace, StrategyName(realm.name, t))
  }

  predicate Owns(s: Hub, realm: Key, strategy: Key) {
    strategy in s.strategies && strategy.namespace == realm.namespace && s.strategies[strategy].realm == realm.name
  }

  // ----- what the placement controller writes -----

  /** createDexClient on an existing object, or on a new one. */
  function WantedClient(s: Hub, realm: Key, strategy: Key, cluster: string): DexClient
    requires realm in s.realms && strategy in s.strategies && cluster in s.hosts
  {
    var key := DexClientKey(s, realm, cluster);
    var base := if key in s.dexClients then s.dexClients[key]
                else DexClient(cluster, s.strategies[strategy].stype, "", Key("", ""), "", false, false);
    base.(clientId := DexClientName(realm.name, cluster),
          secret := SecretKey(realm, cluster),
          redirect := RedirectURI(s.hosts[cluster], realm.name))
  }

  /** createClusterOAuth: the secret it names is the one its DexClient refers to. */
  function WantedOAuth(s: Hub, realm: Key, strategy: Key, cluster: string): ClusterOAuth
    requires realm in s.realms && DexClientKey(s, realm, cluster) in s.dexClients
  {
    var key, client := OAuthKey(realm, cluster), DexClientKey(s, realm, cluster);
    var old_ := key in s.oauths;
    ClusterOAuth(realm, strategy, client,
                 ClusterState.Provider(realm.name, DexClientName(realm.name, cluster),
                     s.dexClients[client].secret.name),
                 old_ && s.oauths[key].finalizer, old_ && s.oauths[key].deleting)
  }

  // ----- API writes -----

  datatype PlacementWrite =
    | CreateSecret(key: Key, value: string)
    | WriteDexClient(realm: Key, strategy: Key, cluster: string)
    | WriteOAuth(realm: Key, strategy: Key, cluster: string)
    | DeleteSecret(key: Key)
    | DeleteOAuth(key: Key)
    | DeleteDexClient(key: Key, stype: StrategyType, owners: seq<string>)
    | FinalizePlacement(key: Key, on: bool)

  datatype RealmWrite =
    | FinalizeRealm(realm: Key)
    | CreateDexNamespace(realm: Key)
    | CreateDexServer(realm: Key, name: string)
    | CreateStrategy(realm: Key, stype: StrategyType)
    | DeleteDexServer(realm: Key, key: Key)
    | DeleteDexNamespace(realm: Key)
    | DeleteStrategy(realm: Key, stype: StrategyType)
    | DeleteOperatorNamespace
    | DeleteRoleBinding
    | DeleteRole
    | ReleaseRealm(realm: Key)

  datatype OAuthWrite = FinalizeOAuth(key: Key) | ReleaseOAuth(key: Key)

  datatype Action =
    | ByPlacement(p: PlacementWrite)
    | ByAuthRealm(r: RealmWrite)
    | ByClusterOAuth(o: OAuthWrite)
    | Environment(next: Hub)

  /** Deletion of an object: gone at once without a finalizer, otherwise only marked. */
  function DeletedLife<K>(m: map<K, Life>, k: K): map<K, Life> {
    if k !in m then m else if m[k].finalizer then m[k := m[k].(deleting := true)] else m - {k}
  }

  function Put<K, V>(m: map<K, V>, k: K, v: V): map<K, V> {
    m[k := v]
  }

  /** Creation that leaves an existing object alone. */
  function Created<K>(m: map<K, Life>, k: K, l: Life): map<K, Life> {
    if k in m then m else m[k := l]
  }

  function DeletedOne(l: Option<Life>): Option<Life> {
    if l.Some? && l.value.finalizer then Some(l.value.(deleting := true)) else None
  }

  function DeletedStrategy(m: map<Key, Strategy>, k: Key): map<Key, Strategy> {
    if k !in m then m else if m[k].finalizer then m[k := m[k].(deleting := true)] else m - {k}
  }

  function DeletedClient(m: map<Key, DexClient>, k: Key): map<Key, DexClient> {
    if k !in m then m else if m[k].finalizer then m[k := m[k].(deleting := true)] else m - {k}
  }

  function DeletedOAuth(m: map<Key, ClusterOAuth>, k: Key): map<Key, ClusterOAuth> {
    if k !in m then m else if m[k].finalizer then m[k := m[k].(deleting := true)] else m - {k}
  }

  predicate NothingInDexNamespace(s: Hub, realm: Key)
    requires realm in s.realms
  {
    && NoClients(s, realm)
    && NoServers(s, realm)
    && DexNamespace(s, realm) !in s.namespaces
  }

  predicate NoClients(s: Hub, realm: Key)
    requires realm in s.realms
  {
    forall k :: k in s.dexClients ==> k.namespace != DexNamespace(s, realm)
  }

  predicate NoServers(s: Hub, realm: Key)
    requires realm in s.realms
  {
    forall k :: k in s.dexServers ==> k.namespace != DexNamespace(s, realm)
  }

  predicate NoStrategies(s: Hub, realm: Key) {
    StrategyKey(realm, Backplane) !in s.strategies && StrategyKey(realm, Hypershift) !in s.strategies
  }

  predicate NoLiveDexRealm(s: Hub) {
    forall k :: k in s.realms ==> !s.realms[k].dex || s.realms[k].deleting
  }

  /** What the placement controller has checked, in the same pass, when it makes a write. */
  predicate PlacementMay(s: Hub, p: PlacementWrite) {
    match p
    case CreateSecret(key, _) => key !in s.secrets
    case WriteDexClient(realm, strategy, cluster) =>
      realm in s.realms && !s.realms[realm].deleting && Owns(s, realm, strategy)
      && cluster in s.hosts && SecretKey(realm, cluster) in s.secrets
    case WriteOAuth(realm, strategy, cluster) =>
      realm in s.realms && !s.realms[realm].deleting && Owns(s, realm, strategy)
      && s.appsURL && DexClientKey(s, realm, cluster) in s.dexClients
    case DeleteSecret(_) => true
    case DeleteOAuth(_) => true
    case DeleteDexClient(key, stype, owners) =>
      && key in s.dexClients && s.dexClients[key].stype == stype
      && NoOAuthOwned(s, s.dexClients[key].cluster, owners)
    case FinalizePlacement(key, _) => key in s.placements
  }

  /** What the AuthRealm controller has checked: it sets up while the realm is held, and tears down
      clients, servers, namespace, strategies and operator in this order. */
  predicate RealmMay(s: Hub, r: RealmWrite) {
    match r
    case FinalizeRealm(realm) => realm in s.realms && !s.realms[realm].deleting
    case CreateDexNamespace(realm) => Managed(s, realm)
    case CreateDexServer(realm, _) => Managed(s, realm)
    case CreateStrategy(realm, t) => Managed(s, realm) && !t.Grc? && StrategyKey(realm, t) !in s.strategies
    case DeleteDexServer(realm, key) => TearingDown(s, realm) && key.namespace == DexNamespace(s, realm)
    case DeleteDexNamespace(realm) => TearingDown(s, realm) && NoServers(s, realm)
    case DeleteStrategy(realm, t) => TearingDown(s, realm) && NothingInDexNamespace(s, realm)
    case DeleteOperatorNamespace => NoLiveDexRealm(s)
    case DeleteRoleBinding => NoLiveDexRealm(s) && OPERATOR_NAMESPACE !in s.namespaces
    case DeleteRole => NoLiveDexRealm(s) && OPERATOR_NAMESPACE !in s.namespaces && s.roleBinding.None?
    case ReleaseRealm(realm) => TearingDown(s, realm) && NothingInDexNamespace(s, realm) && NoStrategies(s, realm)
  }

  predicate OAuthMay(s: Hub, o: OAuthWrite) {
    match o
    case FinalizeOAuth(key) => key in s.oauths && !s.oauths[key].deleting
    case ReleaseOAuth(key) => key in s.oauths && s.oauths[key].deleting
  }

  ghost predicate Enabled(s: Hub, a: Action) {
    match a
    case ByPlacement(p) => PlacementMay(s, p)
    case ByAuthRealm(r) => RealmMay(s, r)
    case ByClusterOAuth(o) => OAuthMay(s, o)
    case Environment(next) => EnvironmentStep(s, next)
  }

  predicate NoOAuthOwned(s: Hub, cluster: string, owners: seq<string>) {
    forall k :: k in s.oauths && k.namespace == cluster ==> s.oauths[k].strategy.name !in owners
  }

  predicate Managed(s: Hub, realm: Key) {
    realm in s.realms && s.realms[realm].finalizer && !s.realms[realm].deleting
  }

  predicate TearingDown(s: Hub, realm: Key) {
    realm in s.realms && s.realms[realm].deleting && NoClients(s, realm)
  }

  function FinalizedPlacement(m: map<Key, Placement>, k: Key, on: bool): map<Key, Placement>
    requires k in m
  {
    if m[k].deleting && !on then m - {k} else m[k := m[k].(finalizer := on)]
  }

  function FinalizedOAuth(m: map<Key, ClusterOAuth>, k: Key): map<Key, ClusterOAuth>
    requires k in m
  {
    m[k := m[k].(finalizer := true)]
  }

  function FinalizedRealm(m: map<Key, Realm>, k: Key): map<Key, Realm>
    requires k in m
  {
    m[k := m[k].(finalizer := true)]
  }

  function PlacementWrites(s: Hub, p: PlacementWrite): Hub
    requires PlacementMay(s, p)
  {
    match p
    case CreateSecret(key, value) => s.(secrets := Put(s.secrets, key, value))
    case WriteDexClient(realm, strategy, cluster) =>
      s.(dexClients := Put(s.dexClients, DexClientKey(s, realm, cluster), WantedClient(s, realm, strategy, cluster)))
    case WriteOAuth(realm, strategy, cluster) =>
      s.(oauths := Put(s.oauths, OAuthKey(realm, cluster), WantedOAuth(s, realm, strategy, cluster)))
    case DeleteSecret(key) => s.(secrets := s.secrets - {key})
    case DeleteOAuth(key) => s.(oauths := DeletedOAuth(s.oauths, key))
    case DeleteDexClient(key, _, _) => s.(dexClients := DeletedClient(s.dexClients, key))
    case FinalizePlacement(key, on) =>
      s.(placements := FinalizedPlacement(s.placements, key, on))
  }

  function RealmWrites(s: Hub, r: RealmWrite): Hub
    requires RealmMay(s, r)
  {
    match r
    case FinalizeRealm(realm) => s.(realms := FinalizedRealm(s.realms, realm))
    case CreateDexNamespace(realm) =>
      s.(namespaces := Created(s.namespaces, DexNamespace(s, realm), Life(true, false)))
    case CreateDexServer(realm, name) =>
      s.(dexServers := Created(s.dexServers, Key(DexNamespace(s, realm), name), Life(false, false)))
    case CreateStrategy(realm, t) =>
      s.(strategies := Put(s.strategies, StrategyKey(realm, t), Strategy(t, realm.name, "", false, false)))
    case DeleteDexServer(_, key) => s.(dexServers := DeletedLife(s.dexServers, key))
    case DeleteDexNamespace(realm) => s.(namespaces := DeletedLife(s.namespaces, DexNamespace(s, realm)))
    case DeleteStrategy(realm, t) => s.(strategies := DeletedStrategy(s.strategies, StrategyKey(realm, t)))
    case DeleteOperatorNamespace => s.(namespaces := DeletedLife(s.namespaces, OPERATOR_NAMESPACE))
    case DeleteRoleBinding => s.(roleBinding := DeletedOne(s.roleBinding))
    case DeleteRole => s.(role := DeletedOne(s.role))
    case ReleaseRealm(realm) => s.(realms := s.realms - {realm})
  }

  function OAuthWrites(s: Hub, o: OAuthWrite): Hub
    requires OAuthMay(s, o)
  {
    match o
    case FinalizeOAuth(key) => s.(oauths := FinalizedOAuth(s.oauths, key))
    case ReleaseOAuth(key) => s.(oauths := s.oauths - {key})
  }

  function Apply(s: Hub, a: Action): Hub
    requires Enabled(s, a)
  {
    match a
    case ByPlacement(p) => PlacementWrites(s, p)
    case ByAuthRealm(r) => RealmWrites(s, r)
    case ByClusterOAuth(o) => OAuthWrites(s, o)
    case Environment(next) => next
  }

  // ----- everything else that happens on the hub -----

  /** Two realms present at the same time differ in their sub-domain (the webhook sees to it) and in
      the names composed from their keys; none takes the operator's own namespace. */
  ghost predicate WellNamed(s: Hub) {
    && (forall a :: a in s.realms ==> s.realms[a].subDomain != "dex")
    && (forall a, b :: a in s.realms && b in s.realms && a != b ==>
          s.realms[a].subDomain != s.realms[b].subDomain && ClusterOAuthName(a) != ClusterOAuthName(b))
  }

  /** Users create and delete AuthRealms and placements, delete strategies and ClusterOAuths; the
      strategy controller points strategies at placements; the scheduler changes decisions; agents
      and the dex operator hold objects and complete their deletion. Nobody but the controllers above
      creates a DexClient, ClusterOAuth, strategy, Dex namespace or Dex server, or deletes a live
      DexClient. */
  ghost predicate EnvironmentStep(s: Hub, t: Hub) {
    && WellNamed(t)
    && t.hosted == s.hosted
    && (forall k :: k in t.realms ==>
          if k in s.realms then
            && t.realms[k].subDomain == s.realms[k].subDomain
            && t.realms[k].finalizer == s.realms[k].finalizer
            && (s.realms[k].deleting ==> t.realms[k].deleting)
          else !t.realms[k].finalizer && !t.realms[k].deleting)
    && (forall k :: k in s.realms && s.realms[k].finalizer ==> k in t.realms)
    && (forall k :: k in t.strategies ==>
          k in s.strategies && t.strategies[k].stype == s.strategies[k].stype &&
              t.strategies[k].realm == s.strategies[k].realm)
    && (forall k :: k in t.dexClients ==>
          k in s.dexClients && t.dexClients[k] == s.dexClients[k].(finalizer := t.dexClients[k].finalizer))
    && (forall k :: k in s.dexClients && !s.dexClients[k].deleting ==> k in t.dexClients)
    && (forall k :: k in t.oauths ==>
          k in s.oauths && t.oauths[k] ==
              s.oauths[k].(finalizer := t.oauths[k].finalizer, deleting := t.oauths[k].deleting))
    && t.dexServers.Keys <= s.dexServers.Keys
    && t.namespaces.Keys <= s.namespaces.Keys + {OPERATOR_NAMESPACE}
  }

  // ----- runs -----

  ghost predicate Legal(s: Hub, run: seq<Action>)
    decreases |run|
  {
    run == [] || (Enabled(s, run[0]) && Legal(Apply(s, run[0]), run[1..]))
  }

  function Run(s: Hub, run: seq<Action>): Hub
    requires Legal(s, run)
    decreases |run|
  {
    if run == [] then s else Run(Apply(s, run[0]), run[1..])
  }

  /** `run` is a sequence of justified writes that leads from `s` to `t`. */
  ghost predicate Leads(s: Hub, run: seq<Action>, t: Hub) {
    Legal(s, run) && Run(s, run) == t
  }

  lemma {:induction false} LeadsThen(s: Hub, run: seq<Action>, t: Hub, more: seq<Action>, u: Hub)
    requires Leads(s, run, t) && Leads(t, more, u)
    ensures Leads(s, run + more, u)
    decreases |run|
  {
    if run == [] {
      assert run + more == more;
    } else {
      LeadsThen(Apply(s, run[0]), run[1..], t, more, u);
      assert (run + more)[0] == run[0] && (run + more)[1..] == run[1..] + more;
    }
  }

  lemma LeadsOne(s: Hub, a: Action)
    requires Enabled(s, a)
    ensures Leads(s, [a], Apply(s, a))
  {
    assert [a][1..] == [];
    assert Legal(Apply(s, a), []);
  }

  /** The API server. `writes` bounds the writes that still succeed. */
  class HubStore {
    var hub: Hub
    var writes: nat

    constructor (hub: Hub, writes: nat)
      ensures this.hub == hub && this.writes == writes
    {
      this.hub := hub;
      this.writes := writes;
    }

    /** One API write: takes effect, or fails and changes nothing. */
    method Write(a: Action) returns (ok: bool, ghost run: seq<Action>)
      requires Enabled(hub, a)
      modifies this
      ensures ok == (old(writes) > 0) && writes == if ok then old(writes) - 1 else 0
      ensures hub == if ok then Apply(old(hub), a) else old(hub)
      ensures run == (if ok then [a] else []) && Leads(old(hub), run, hub)
    {
      ok := writes > 0;
      run := [];
      if ok {
        LeadsOne(hub, a);
        hub := Apply(hub, a);
        writes := writes - 1;
        run := [a];
      }
    }
  }
}
