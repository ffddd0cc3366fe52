/** Teardown of an AuthRealm ends: each pass that waits has used up one of the few things that are
    left, and nothing of a realm in deletion comes back. */
module BoundedTeardown {
  import opened Kube
  import opened Names
  import opened Hub
  import opened HubInvariant
  import opened AuthRealmTeardown

  function One(b: bool): nat {
    if b then 1 else 0
  }

  /** What is left of the realm itself once its DexClients are gone. */
  function Own(s: Hub, realm: Key): nat
    requires realm in s.realms
  {
    One(!NoServers(s, realm)) + One(DexNamespace(s, realm) in s.namespaces)
    + One(StrategyKey(realm, Backplane) in s.strategies) + One(StrategyKey(realm, Hypershift) in s.strategies)
  }

  function Operator(s: Hub): nat {
    One(OPERATOR_NAMESPACE in s.namespaces) + One(s.roleBinding.Some?) + One(s.role.Some?)
  }

  /** No stage is left exactly when nothing of the realm is left, and nothing of the operator unless
      another live realm needs it. */
  lemma NothingLeft(s: Hub, realm: Key)
    requires realm in s.realms
    ensures StageOf(s, realm) == Nothing <==>
              NoClients(s, realm) && Own(s, realm) == 0 && (NoLiveDexRealm(s) ==> Operator(s) == 0)
  {
  }

  ghost predicate Leaving(s: Hub, realm: Key) {
    WellNamed(s) && Held(s, realm) && s.realms[realm].deleting
  }

  /** Nothing of the realm is in `t` that is not in `s`. */
  ghost predicate NothingBack(s: Hub, t: Hub, realm: Key)
    requires realm in s.realms
  {
    var namespace := DexNamespace(s, realm);
    && realm in t.realms && t.realms[realm].subDomain == s.realms[realm].subDomain
    && (forall k :: k in t.dexClients && k.namespace == namespace ==> k in s.dexClients)
    && (forall k :: k in t.dexServers && k.namespace == namespace ==> k in s.dexServers)
    && (namespace in t.namespaces ==> namespace in s.namespaces)
    && (StrategyKey(realm, Backplane) in t.strategies ==> StrategyKey(realm, Backplane) in s.strategies)
    && (StrategyKey(realm, Hypershift) in t.strategies ==> StrategyKey(realm, Hypershift) in s.strategies)
  }

  lemma PlacementBringsNothing(s: Hub, p: PlacementWrite, realm: Key)
    requires PlacementMay(s, p) && Leaving(s, realm)
    ensures NothingBack(s, PlacementWrites(s, p), realm) && Leaving(PlacementWrites(s, p), realm)
  {
    PlacementKeepsSetUp(s, p);
    if p.WriteDexClient? && DexNamespace(s, p.realm) == DexNamespace(s, realm) {
      SameDexNamespace(s, p.realm, realm);
    }
  }

  lemma RealmBringsNothing(s: Hub, r: RealmWrite, realm: Key)
    requires RealmMay(s, r) && Leaving(s, realm) && r != ReleaseRealm(realm)
    ensures NothingBack(s, RealmWrites(s, r), realm)
  {
    if r.CreateStrategy? {
      StrategyBringsNothing(s, r, realm);
    } else if r.CreateDexNamespace? || r.CreateDexServer? {
      ServerBringsNothing(s, r, realm);
    } else {
      DeletionBringsNothing(s, r, realm);
    }
  }

  lemma StrategyBringsNothing(s: Hub, r: RealmWrite, realm: Key)
    requires r.CreateStrategy? && RealmMay(s, r) && Leaving(s, realm)
    ensures NothingBack(s, RealmWrites(s, r), realm)
  {
    StrategyNameInjective(r.realm.name, r.stype, realm.name, Backplane);
    StrategyNameInjective(r.realm.name, r.stype, realm.name, Hypershift);
  }

  lemma ServerBringsNothing(s: Hub, r: RealmWrite, realm: Key)
    requires (r.CreateDexNamespace? || r.CreateDexServer?) && RealmMay(s, r) && Leaving(s, realm)
    ensures NothingBack(s, RealmWrites(s, r), realm)
  {
    CreatedServersOnly(s, r);
    if DexNamespace(s, r.realm) == DexNamespace(s, realm) {
      SameDexNamespace(s, r.realm, realm);
    }
  }

  lemma DeletionBringsNothing(s: Hub, r: RealmWrite, realm: Key)
    requires !r.CreateStrategy? && !r.CreateDexNamespace? && !r.CreateDexServer?
    requires RealmMay(s, r) && Leaving(s, realm) && r != ReleaseRealm(realm)
    ensures NothingBack(s, RealmWrites(s, r), realm)
  {
  }

  lemma RealmStaysLeaving(s: Hub, r: RealmWrite, realm: Key)
    requires RealmMay(s, r) && Leaving(s, realm) && r != ReleaseRealm(realm)
    ensures Leaving(RealmWrites(s, r), realm)
  {
    RealmWritesKeepOthers(s, r, realm);
    RealmWritesRealms(s, r);
  }

  lemma RealmWritesRealms(s: Hub, r: RealmWrite)
    requires RealmMay(s, r)
    ensures forall k :: k in RealmWrites(s, r).realms ==>
              && k in s.realms
              && RealmWrites(s, r).realms[k] == s.realms[k].(finalizer := RealmWrites(s, r).realms[k].finalizer)
    ensures forall k :: k in RealmWrites(s, r).realms && s.realms[k].finalizer ==> RealmWrites(s, r).realms[k].finalizer
  {
  }

  lemma OAuthBringsNothing(s: Hub, o: OAuthWrite, realm: Key)
    requires OAuthMay(s, o) && Leaving(s, realm)
    ensures NothingBack(s, OAuthWrites(s, o), realm) && Leaving(OAuthWrites(s, o), realm)
  {
  }

  lemma EnvironmentBringsNothing(s: Hub, t: Hub, realm: Key)
    requires EnvironmentStep(s, t) && Leaving(s, realm)
    ensures NothingBack(s, t, realm) && Leaving(t, realm)
  {
    DexServerNamespaceInjective(s.realms[realm].subDomain, "dex");
  }

  lemma ActionBringsNothing(s: Hub, a: Action, realm: Key)
    requires Enabled(s, a) && Leaving(s, realm) && a != ByAuthRealm(ReleaseRealm(realm))
    ensures NothingBack(s, Apply(s, a), realm) && Leaving(Apply(s, a), realm)
  {
    match a
    case ByPlacement(p) => PlacementBringsNothing(s, p, realm);
    case ByAuthRealm(r) => RealmBringsNothing(s, r, realm); RealmStaysLeaving(s, r, realm);
    case ByClusterOAuth(o) => OAuthBringsNothing(s, o, realm);
    case Environment(next) => EnvironmentBringsNothing(s, next, realm);
  }

  lemma NothingBackTwice(s: Hub, t: Hub, u: Hub, realm: Key)
    requires realm in s.realms && NothingBack(s, t, realm) && NothingBack(t, u, realm)
    ensures NothingBack(s, u, realm)
  {
  }

  /** Whatever the other controllers and the environment do, nothing of a realm in deletion comes
      back. */
  lemma {:induction false} RunBringsNothing(s: Hub, run: seq<Action>, realm: Key)
    requires Legal(s, run) && Leaving(s, realm) && ByAuthRealm(ReleaseRealm(realm)) !in run
    ensures NothingBack(s, Run(s, run), realm) && Leaving(Run(s, run), realm)
    decreases |run|
  {
    if run != [] {
      ActionBringsNothing(s, run[0], realm);
      RunBringsNothing(Apply(s, run[0]), run[1..], realm);
      NothingBackTwice(s, Apply(s, run[0]), Run(s, run), realm);
    }
  }

  /** The deletions of the realm's own objects that were issued in `u` have completed in `t`. */
  ghost predicate Completed(u: Hub, t: Hub, realm: Key)
    requires realm in u.realms
  {
    var namespace := DexNamespace(u, realm);
    && (forall k :: k in t.dexServers && k.namespace == namespace && k in u.dexServers ==> !u.dexServers[k].deleting)
    && (namespace in t.namespaces && namespace in u.namespaces ==> !u.namespaces[namespace].deleting)
    && StrategyCompleted(u, t, StrategyKey(realm, Backplane)) && StrategyCompleted(u, t, StrategyKey(realm, Hypershift))
  }

  /** Those of the operator's objects have completed too, and nobody installed it again. */
  ghost predicate OperatorCompleted(u: Hub, t: Hub) {
    && (OPERATOR_NAMESPACE in t.namespaces ==>
        OPERATOR_NAMESPACE in u.namespaces && !u.namespaces[OPERATOR_NAMESPACE].deleting)
    && (t.roleBinding.Some? ==> u.roleBinding.Some? && !u.roleBinding.value.deleting)
    && (t.role.Some? ==> u.role.Some? && !u.role.value.deleting)
  }

  ghost predicate StrategyCompleted(u: Hub, t: Hub, k: Key) {
    k in t.strategies && k in u.strategies ==> !u.strategies[k].deleting
  }

  /** Realms and clients are as before, and nothing is new. */
  ghost predicate Trimmed(s: Hub, u: Hub) {
    && u.realms == s.realms && u.dexClients == s.dexClients
    && u.dexServers.Keys <= s.dexServers.Keys && u.namespaces.Keys <= s.namespaces.Keys &&
        u.strategies.Keys <= s.strategies.Keys
    && (u.roleBinding.Some? ==> s.roleBinding.Some?) && (u.role.Some? ==> s.role.Some?)
  }

  lemma IssuedTrims(s: Hub, realm: Key, stage: Stage)
    requires realm in s.realms
    ensures Trimmed(s, IssuedAt(s, realm, stage))
  {
  }

  lemma PassTrims(s: Hub, u: Hub, realm: Key, outcome: Outcome)
    requires Leaving(s, realm) && Pass(s, u, realm, outcome) && outcome in {Requeue, Failed}
    ensures Trimmed(s, u) && Leaving(u, realm) && NothingBack(s, u, realm)
  {
    if outcome.Requeue? {
      IssuedTrims(s, realm, StageOf(s, realm));
    } else {
      FailedTrims(s, u, DexNamespace(s, realm));
    }
    TrimmedBringsNothing(s, u, realm);
  }

  lemma FailedTrims(s: Hub, u: Hub, namespace: string)
    requires u == s || SomeServersDeleted(s, u, namespace)
    ensures Trimmed(s, u)
  {
  }

  lemma TrimmedBringsNothing(s: Hub, u: Hub, realm: Key)
    requires Leaving(s, realm) && Trimmed(s, u)
    ensures Leaving(u, realm) && NothingBack(s, u, realm)
  {
  }

  lemma OwnShrinks(s: Hub, t: Hub, realm: Key)
    requires realm in s.realms && NothingBack(s, t, realm)
    ensures Own(t, realm) <= Own(s, realm)
    ensures NoClients(s, realm) ==> NoClients(t, realm)
  {
    assert NoServers(s, realm) ==> NoServers(t, realm);
  }

  lemma OperatorShrinks(s: Hub, u: Hub, t: Hub)
    requires Trimmed(s, u) && OperatorCompleted(u, t)
    ensures Operator(t) <= Operator(s) && OperatorFewer(s, t)
  {
  }

  /** What a stage is about is gone. */
  predicate Cleared(t: Hub, realm: Key, stage: Stage)
    requires realm in t.realms
  {
    match stage
    case Clients => NoClients(t, realm)
    case Servers => NoServers(t, realm)
    case DexSpace => DexNamespace(t, realm) !in t.namespaces
    case StrategyOf(st) => StrategyKey(realm, st) !in t.strategies
    case OperatorSpace => OPERATOR_NAMESPACE !in t.namespaces
    case OperatorBinding => t.roleBinding.None?
    case OperatorRole => t.role.None?
    case Nothing => true
  }

  /** What a stage deletes is gone once the deletions have completed. */
  lemma StageCompletes(s: Hub, u: Hub, t: Hub, realm: Key, stage: Stage)
    requires Leaving(s, realm) && u == IssuedAt(s, realm, stage) && !stage.Clients? && stage != StrategyOf(Grc)
    requires realm in u.realms && NothingBack(u, t, realm) && Completed(u, t, realm)
    requires stage in {OperatorSpace, OperatorBinding, OperatorRole} ==> OperatorCompleted(u, t)
    ensures Cleared(t, realm, stage)
  {
    match stage
    case Servers => assert u.dexServers == ServersDeleted(s.dexServers, DexNamespace(s, realm));
    case DexSpace => assert u.namespaces == DeletedLife(s.namespaces, DexNamespace(s, realm));
    case StrategyOf(st) => assert u.strategies == DeletedStrategy(s.strategies, StrategyKey(realm, st));
    case _ =>
  }

  /** A pass that waits, once its deletions have completed, has brought the end one step nearer. While
      another realm needs the operator the step is on the realm's own objects, whatever happens to those
      of the operator. */
  lemma WaitingMakesProgress(s: Hub, u: Hub, t: Hub, realm: Key)
    requires Leaving(s, realm) && NoClients(s, realm) && Pass(s, u, realm, Requeue)
    requires Leaving(u, realm) && NothingBack(u, t, realm) && Completed(u, t, realm)
    ensures OperatorCompleted(u, t) ==> Own(t, realm) + Operator(t) < Own(s, realm) + Operator(s)
    ensures !NoLiveDexRealm(s) ==> Own(t, realm) < Own(s, realm)
  {
    PassTrims(s, u, realm, Requeue);
    NothingBackTwice(s, u, t, realm);
    OwnShrinks(s, t, realm);
    var stage := StageOf(s, realm);
    if OperatorCompleted(u, t) {
      OperatorShrinks(s, u, t);
      StageCompletes(s, u, t, realm, stage);
      StageCounts(s, t, realm);
    } else if !NoLiveDexRealm(s) {
      StageCompletes(s, u, t, realm, stage);
      OwnStageCounts(s, t, realm);
    }
  }

  lemma StageCounts(s: Hub, t: Hub, realm: Key)
    requires realm in s.realms && StageOf(s, realm) != Nothing && NoClients(s, realm)
    requires NothingBack(s, t, realm) && Operator(t) <= Operator(s) && OperatorFewer(s, t)
    requires Cleared(t, realm, StageOf(s, realm))
    ensures Own(t, realm) + Operator(t) < Own(s, realm) + Operator(s)
    ensures !NoLiveDexRealm(s) ==> Own(t, realm) < Own(s, realm)
  {
    assert NoServers(s, realm) ==> NoServers(t, realm);
  }

  lemma OwnStageCounts(s: Hub, t: Hub, realm: Key)
    requires realm in s.realms && StageOf(s, realm) != Nothing && NoClients(s, realm) && !NoLiveDexRealm(s)
    requires NothingBack(s, t, realm) && Cleared(t, realm, StageOf(s, realm))
    ensures Own(t, realm) < Own(s, realm)
  {
    assert NoServers(s, realm) ==> NoServers(t, realm);
  }

  ghost predicate OperatorFewer(s: Hub, t: Hub) {
    && (OPERATOR_NAMESPACE in t.namespaces ==> OPERATOR_NAMESPACE in s.namespaces)
    && (t.roleBinding.Some? ==> s.roleBinding.Some?) && (t.role.Some? ==> s.role.Some?)
  }

  /** A pass that fails loses no ground. */
  lemma FailingLosesNothing(s: Hub, u: Hub, t: Hub, realm: Key)
    requires Leaving(s, realm) && Pass(s, u, realm, Failed)
    requires Leaving(u, realm) && NothingBack(u, t, realm) && Completed(u, t, realm)
    ensures Own(t, realm) <= Own(s, realm) && (OperatorCompleted(u, t) ==> Operator(t) <= Operator(s))
  {
    PassTrims(s, u, realm, Failed);
    NothingBackTwice(s, u, t, realm);
    OwnShrinks(s, t, realm);
    if OperatorCompleted(u, t) {
      OperatorShrinks(s, u, t);
    }
  }

  /** While another live AuthRealm uses Dex, no pass touches the operator. */
  lemma OperatorUntouched(s: Hub, t: Hub, realm: Key, outcome: Outcome)
    requires Leaving(s, realm) && Pass(s, t, realm, outcome) && !NoLiveDexRealm(s)
    ensures SameOperator(s, t)
  {
    DexServerNamespaceInjective(s.realms[realm].subDomain, "dex");
    if outcome.Requeue? {
      StageUntouched(s, realm, StageOf(s, realm));
    }
  }

  ghost predicate SameOperator(s: Hub, t: Hub) {
    && t.roleBinding == s.roleBinding && t.role == s.role
    && (OPERATOR_NAMESPACE in t.namespaces <==> OPERATOR_NAMESPACE in s.namespaces)
    && (OPERATOR_NAMESPACE in s.namespaces ==> t.namespaces[OPERATOR_NAMESPACE] == s.namespaces[OPERATOR_NAMESPACE])
  }

  lemma StageUntouched(s: Hub, realm: Key, stage: Stage)
    requires realm in s.realms && DexNamespace(s, realm) != OPERATOR_NAMESPACE
    requires !stage.OperatorSpace? && !stage.OperatorBinding? && !stage.OperatorRole?
    ensures SameOperator(s, IssuedAt(s, realm, stage))
  {
  }

  // ----- every teardown -----

  /** One pass that did not release the realm, and what everybody else did until the next one. */
  datatype Round = Round(outcome: Outcome, after: Hub, others: seq<Action>)

  ghost predicate IsRound(s: Hub, realm: Key, r: Round)
    requires realm in s.realms
  {
    && r.outcome in {Requeue, Failed} && Pass(s, r.after, realm, r.outcome)
    && Legal(r.after, r.others) && ByAuthRealm(ReleaseRealm(realm)) !in r.others
    && realm in r.after.realms && Completed(r.after, Run(r.after, r.others), realm)
  }

  ghost predicate Rounds(s: Hub, realm: Key, rounds: seq<Round>)
    decreases |rounds|
  {
    rounds == [] ||
    (realm in s.realms && IsRound(s, realm, rounds[0]) &&
        Rounds(Run(rounds[0].after, rounds[0].others), realm, rounds[1..]))
  }

  ghost function End(s: Hub, realm: Key, rounds: seq<Round>): Hub
    requires Rounds(s, realm, rounds)
    decreases |rounds|
  {
    if rounds == [] then s else End(Run(rounds[0].after, rounds[0].others), realm, rounds[1..])
  }

  /** Another live AuthRealm uses Dex whenever a pass begins. */
  ghost predicate NeededThroughout(s: Hub, realm: Key, rounds: seq<Round>)
    requires Rounds(s, realm, rounds)
    decreases |rounds|
  {
    rounds == [] || (!NoLiveDexRealm(s) && NeededThroughout(Run(rounds[0].after, rounds[0].others), realm, rounds[1..]))
  }

  /** In every round the deletions of the operator's objects complete, and it is not installed again. */
  ghost predicate NotReinstalled(s: Hub, realm: Key, rounds: seq<Round>)
    requires Rounds(s, realm, rounds)
    decreases |rounds|
  {
    rounds == [] ||
    var t := Run(rounds[0].after, rounds[0].others);
    OperatorCompleted(rounds[0].after, t) && NotReinstalled(t, realm, rounds[1..])
  }

  function Waits(rounds: seq<Round>): nat {
    if rounds == [] then 0 else One(rounds[0].outcome.Requeue?) + Waits(rounds[1..])
  }

  lemma RoundMakesProgress(s: Hub, realm: Key, r: Round)
    requires Leaving(s, realm) && NoClients(s, realm) && IsRound(s, realm, r)
    ensures var t := Run(r.after, r.others);
            && Leaving(t, realm) && NoClients(t, realm)
            && Own(t, realm) <= Own(s, realm)
            && (OperatorCompleted(r.after, t) ==>
                  One(r.outcome.Requeue?) + Own(t, realm) + Operator(t) <= Own(s, realm) + Operator(s))
            && (!NoLiveDexRealm(s) ==> One(r.outcome.Requeue?) + Own(t, realm) <= Own(s, realm))
  {
    var t := Run(r.after, r.others);
    PassTrims(s, r.after, realm, r.outcome);
    RunBringsNothing(r.after, r.others, realm);
    OwnShrinks(r.after, t, realm);
    if r.outcome.Requeue? {
      WaitingMakesProgress(s, r.after, t, realm);
    } else {
      FailingLosesNothing(s, r.after, t, realm);
    }
  }

  /** Once the DexClients are gone, a teardown waits at most four times while another live AuthRealm
      uses Dex, whatever becomes of the operator, and at most seven times if nobody installs the operator
      again; failed passes do not count. */
  lemma {:induction false} TeardownIsBounded(s: Hub, realm: Key, rounds: seq<Round>)
    requires Leaving(s, realm) && NoClients(s, realm) && Rounds(s, realm, rounds)
    ensures var t := End(s, realm, rounds);
            && Leaving(t, realm) && NoClients(t, realm)
            && (NeededThroughout(s, realm, rounds) ==> Waits(rounds) + Own(t, realm) <= Own(s, realm) <= 4)
            && (NotReinstalled(s, realm, rounds) ==>
                  Waits(rounds) + Own(t, realm) + Operator(t) <= Own(s, realm) + Operator(s) <= 7)
    decreases |rounds|
  {
    if rounds != [] {
      RoundMakesProgress(s, realm, rounds[0]);
      TeardownIsBounded(Run(rounds[0].after, rounds[0].others), realm, rounds[1..]);
    }
  }

  /** After the fourth wait while the operator is needed, or the seventh, a pass that does not fail
      releases the realm, and leaves nothing of it. */
  lemma ThenReleased(s: Hub, realm: Key, rounds: seq<Round>, after: Hub, outcome: Outcome)
    requires Leaving(s, realm) && NoClients(s, realm) && Rounds(s, realm, rounds)
    requires || (Waits(rounds) >= 7 && NotReinstalled(s, realm, rounds))
             || (Waits(rounds) >= 4 && NeededThroughout(s, realm, rounds) && !NoLiveDexRealm(End(s, realm, rounds)))
    requires realm in End(s, realm, rounds).realms && Pass(End(s, realm, rounds), after, realm, outcome)
    ensures !outcome.Failed? ==> outcome.Done? && realm !in after.realms
    ensures NothingInDexNamespace(End(s, realm, rounds), realm) && NoStrategies(End(s, realm, rounds), realm)
  {
    TeardownIsBounded(s, realm, rounds);
    NothingLeft(End(s, realm, rounds), realm);
  }
}
