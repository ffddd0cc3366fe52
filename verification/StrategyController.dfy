/** The passes of the strategy controller in one namespace: tying a strategy to the placement made for
    it from the user's placement, and untying it. */
module StrategyController {
  import opened Kube
  import Names
  import OwnerReferences
  import opened StrategyPlacement

  /** `placement` is the user's placement that the AuthRealm refers to. */
  datatype Realm = Realm(placement: string, deleting: bool)

  datatype Strategy = Strategy(uid: string, stype: StrategyType, realm: string, placement: string, finalizer: bool,
      deleting: bool)

  /** `source` names the user's placement on a placement made for a strategy. */
  datatype PlacementObject = PlacementObject(
    source: Option<string>, owners: seq<string>, predicates: seq<Selector>, finalizer: bool, deleting: bool)

  datatype Space = Space(realms: map<string, Realm>, strategies: map<string, Strategy>, placements: map<string,
      PlacementObject>)

  class SpaceStore {
    var space: Space
    var writes: nat

    constructor (space: Space, writes: nat)
      ensures this.space == space && this.writes == writes
    {
      this.space, this.writes := space, writes;
    }

    /** One API write that leads to `next`, or fails and changes nothing. */
    method Write(next: Space) returns (ok: bool)
      modifies this
      ensures ok == (old(writes) > 0) && writes == if ok then old(writes) - 1 else 0
      ensures space == if ok then next else old(space)
    {
      ok := writes > 0;
      if ok {
        space, writes := next, writes - 1;
      }
    }
  }

  // ----- tying -----

  function Finalized(s: Space, name: string): Space
    requires name in s.strategies
  {
    s.(strategies := s.strategies[name := s.strategies[name].(finalizer := true)])
  }

  function Referring(s: Space, name: string, placement: string): Space
    requires name in s.strategies
  {
    s.(strategies := s.strategies[name := s.strategies[name].(placement := placement)])
  }

  function WithPlacement(s: Space, name: string, p: PlacementObject): Space {
    s.(placements := s.placements[name := p])
  }

  predicate HasRealm(s: Space, name: string) {
    name in s.strategies && s.strategies[name].realm in s.realms
  }

  function RealmOf(s: Space, name: string): Realm
    requires HasRealm(s, name)
  {
    s.realms[s.strategies[name].realm]
  }

  /** The name of the placement made for the strategy. */
  function Made(s: Space, name: string): string
    requires HasRealm(s, name)
  {
    Names.StrategyName(RealmOf(s, name).placement, s.strategies[name].stype)
  }

  function WithOwner(owners: seq<string>, uid: string): seq<string> {
    if uid in owners then owners else owners + [uid]
  }

  /** getStrategyPlacement and the rewriting of the user's predicates. */
  function Wanted(s: Space, name: string): PlacementObject
    requires HasRealm(s, name) && RealmOf(s, name).placement in s.placements && !s.strategies[name].stype.Grc?
  {
    var made, ref := Made(s, name), RealmOf(s, name).placement;
    var base := if made in s.placements then s.placements[made] else PlacementObject(Some(ref), [], [], false, false);
    base.(owners := WithOwner(base.owners, s.strategies[name].uid),
          predicates := Rewritten(s.strategies[name].stype, s.placements[ref].predicates))
  }

  /** The strategy holds its finalizer and refers to the placement made for it, which it owns and
      which selects what the rewriting gives. */
  predicate Tied(s: Space, name: string) {
    && HasRealm(s, name) && s.strategies[name].finalizer && s.strategies[name].placement == Made(s, name)
    && Made(s, name) in s.placements && RealmOf(s, name).placement in s.placements && !s.strategies[name].stype.Grc?
    && s.strategies[name].uid in s.placements[Made(s, name)].owners
    && s.placements[Made(s, name)].predicates ==
         Rewritten(s.strategies[name].stype, s.placements[RealmOf(s, name).placement].predicates)
  }

  /** The pass touches the strategy and its own placement only, in this order: finalizer, reference,
      placement. */
  predicate TiedInOrder(s: Space, t: Space, name: string)
    requires name in s.strategies
  {
    var f := Finalized(s, name);
    || t == s || t == f
    || (HasRealm(s, name) && (t == Referring(f, name, Made(s, name)) ||
          (RealmOf(s, name).placement in s.placements && !s.strategies[name].stype.Grc?
           && t == WithPlacement(Referring(f, name, Made(s, name)), Made(s, name), Wanted(s, name)))))
  }

  lemma WantedTies(s: Space, name: string)
    requires HasRealm(s, name) && RealmOf(s, name).placement in s.placements && !s.strategies[name].stype.Grc?
    ensures Tied(WithPlacement(Referring(Finalized(s, name), name, Made(s, name)), Made(s, name), Wanted(s, name)),
        name)
    ensures Wanted(s, name) == Wanted(Finalized(s, name), name) && Made(s, name) == Made(Finalized(s, name), name)
  {
    Names.StrategyNameLonger(RealmOf(s, name).placement, s.strategies[name].stype);
  }

  /** What an update, cut short anywhere, may leave. */
  ghost predicate Updated(s: Space, t: Space, name: string)
    requires name in s.strategies
  {
    TiedInOrder(s, t, name) || (HasRealm(s, name) && OnlyMadeFrom(Finalized(s, name), t, RealmOf(s, name).placement))
  }

  method Tie(store: SpaceStore, name: string) returns (outcome: Outcome)
    requires HasRealm(store.space, name) && RealmOf(store.space, name).placement in store.space.placements
    modifies store
    ensures outcome in {Done, Failed}
    ensures var s, t := old(store.space), store.space;
            && (t == s || t == Referring(s, name, Made(s, name)) ||
                (!s.strategies[name].stype.Grc? &&
                    t == WithPlacement(Referring(s, name, Made(s, name)), Made(s, name), Wanted(s, name))))
            && (outcome.Failed? ==> store.writes == 0 || s.strategies[name].stype.Grc?)
            && (outcome.Done? ==>
                !s.strategies[name].stype.Grc? &&
                    t == WithPlacement(Referring(s, name, Made(s, name)), Made(s, name), Wanted(s, name)))
  {
    var s := store.space;
    var strategy, ref, made := s.strategies[name], RealmOf(s, name).placement, Made(s, name);
    var object_ := if made in s.placements then s.placements[made]
        else PlacementObject(Some(ref), [], [], false, false);
    object_ := object_.(owners := WithOwner(object_.owners, strategy.uid));
    var placement := new Placement(object_.predicates);
    var ok := placement.Enrich(strategy.stype, s.placements[ref].predicates);
    if !ok {
      return Failed;
    }
    object_ := object_.(predicates := placement.predicates);
    ok := store.Write(Referring(store.space, name, made));
    if !ok {
      return Failed;
    }
    ok := store.Write(WithPlacement(store.space, made, object_));
    outcome := if ok then Done else Failed;
  }

  /** The placements made from a user's placement that is gone. */
  predicate MadeFrom(p: PlacementObject, ref: string) {
    p.source == Some(ref)
  }

  function DeletedPlacement(m: map<string, PlacementObject>, k: string): map<string, PlacementObject> {
    if k !in m then m else if m[k].finalizer then m[k := m[k].(deleting := true)] else m - {k}
  }

  /** Only placements made from `ref` went or were marked. */
  ghost predicate OnlyMadeFrom(s: Space, t: Space, ref: string) {
    && t == s.(placements := t.placements)
    && (forall k :: k in t.placements ==>
        k in s.placements && t.placements[k] == s.placements[k].(deleting := t.placements[k].deleting))
    && (forall k :: k in s.placements && !MadeFrom(s.placements[k], ref) ==>
        k in t.placements && t.placements[k] == s.placements[k])
  }

  method DeleteStrategyPlacement(store: SpaceStore, ref: string) returns (ok: bool)
    modifies store
    ensures OnlyMadeFrom(old(store.space), store.space, ref)
    ensures !ok ==> store.writes == 0
    ensures ok ==> forall k :: k in store.space.placements && MadeFrom(store.space.placements[k], ref) ==>
        store.space.placements[k].deleting
  {
    ghost var s := store.space;
    var todo := store.space.placements.Keys;
    ok := true;
    while todo != {}
      invariant todo <= s.placements.Keys && OnlyMadeFrom(s, store.space, ref)
      invariant forall k :: k in store.space.placements && k !in todo && MadeFrom(store.space.placements[k], ref) ==>
          store.space.placements[k].deleting
      decreases |todo|
    {
      var k :| k in todo;
      todo := todo - {k};
      if k in store.space.placements && MadeFrom(store.space.placements[k], ref) {
        var next := store.space.(placements := DeletedPlacement(store.space.placements, k));
        ok := store.Write(next);
        if !ok {
          return;
        }
      }
    }
  }

  /** processStrategyUpdate. */
  method ProcessStrategyUpdate(store: SpaceStore, name: string) returns (outcome: Outcome)
    requires name in store.space.strategies && !store.space.strategies[name].deleting
    modifies store
    ensures outcome in {Done, Failed} && Updated(old(store.space), store.space, name)
    ensures var s, t := old(store.space), store.space;
            && (outcome.Done? ==> HasRealm(s, name))
            && (outcome.Failed? ==> store.writes == 0 || !HasRealm(s, name) || s.strategies[name].stype.Grc?)
            && (HasRealm(s, name) && RealmOf(s, name).deleting ==> t == s || t == Finalized(s, name))
            && (HasRealm(s, name) && RealmOf(s, name).placement !in s.placements && !RealmOf(s, name).deleting ==>
                  t == s || OnlyMadeFrom(Finalized(s, name), t, RealmOf(s, name).placement))
            && (!HasRealm(s, name) || RealmOf(s, name).deleting || RealmOf(s, name).placement in s.placements ==>
                TiedInOrder(s, t, name))
            && (outcome.Done? && !RealmOf(s, name).deleting ==>
                  if RealmOf(s, name).placement in s.placements then Tied(t, name)
                  else forall k :: k in t.placements && MadeFrom(t.placements[k], RealmOf(s, name).placement) ==>
                      t.placements[k].deleting)
  {
    ghost var s := store.space;
    var ok := store.Write(Finalized(store.space, name));
    if !ok || store.space.strategies[name].realm !in store.space.realms {
      return Failed;
    }
    var realm := RealmOf(store.space, name);
    if realm.deleting {
      return Done;
    }
    if realm.placement !in store.space.placements {
      ok := DeleteStrategyPlacement(store, realm.placement);
      return if ok then Done else Failed;
    }
    if !s.strategies[name].stype.Grc? {
      WantedTies(s, name);
    }
    outcome := Tie(store, name);
  }

  /** Once tied, a strategy stays tied: its references and owners do not change any more. */
  lemma TyingAgainChangesNothing(s: Space, t: Space, name: string)
    requires Tied(s, name) && TiedInOrder(s, t, name)
    ensures t == s
  {
    assert s.strategies[name := s.strategies[name]] == s.strategies;
    assert Wanted(s, name) == s.placements[Made(s, name)];
    assert s.placements[Made(s, name) := s.placements[Made(s, name)]] == s.placements;
  }

  // ----- untying -----

  /** What a deletion pass leaves when nothing fails. */
  function Untied(s: Space, name: string): Space
    requires HasRealm(s, name)
  {
    var made := Made(s, name);
    var released := s.(strategies := s.strategies - {name});
    if made !in s.placements then released
    else
      match OwnerReferences.FateOf(s.placements[made].owners, s.strategies[name].uid)
      case Panicked => s
      case Deleted => s.(placements := DeletedPlacement(s.placements, made))
      case _ => WithPlacement(released, made, Left(s.placements[made], s.strategies[name].uid))
  }

  function Left(p: PlacementObject, uid: string): PlacementObject {
    p.(owners := OwnerReferences.Overwritten(p.owners, uid))
  }

  predicate NoOwner(s: Space, placement: string) {
    placement in s.placements && s.placements[placement].owners == []
  }

  /** What a deletion pass, cut short anywhere, may leave. */
  predicate UntiedInOrder(s: Space, t: Space, name: string)
    requires HasRealm(s, name)
  {
    || t == s || t == Untied(s, name)
    || (Made(s, name) in s.placements
        && t == WithPlacement(s, Made(s, name), Left(s.placements[Made(s, name)], s.strategies[name].uid)))
  }

  /** Reconcile on a strategy in deletion: it goes when its placement is gone, or stays with other
      owners; as their last owner it deletes the placement and waits. */
  method Release(store: SpaceStore, name: string) returns (outcome: Outcome)
    requires name in store.space.strategies && store.space.strategies[name].deleting
    modifies store
    ensures outcome in {Done, Requeue, Failed}
    ensures var s, t := old(store.space), store.space;
            && (!outcome.Failed? ==>
                HasRealm(s, name) && t == Untied(s, name) && (outcome.Done? <==> name !in t.strategies))
            && (outcome.Failed? ==> store.writes == 0 || !HasRealm(s, name) || NoOwner(s, Made(s, name)))
            && (t == s || (HasRealm(s, name) && UntiedInOrder(s, t, name)))
  {
    var s := store.space;
    var strategy := s.strategies[name];
    if strategy.realm !in s.realms {
      return Failed;
    }
    var made := Made(s, name);
    var ok;
    if made in s.placements {
      var owners := s.placements[made].owners;
      var refs := new string[|owners|](i requires 0 <= i < |owners| => owners[i]);
      assert refs[..] == owners;
      var fate := OwnerReferences.ReleasePlacement(refs, strategy.uid);
      if fate.Panicked? {
        return Failed;
      }
      if fate.Deleted? {
        ok := store.Write(s.(placements := DeletedPlacement(s.placements, made)));
        return if ok then Requeue else Failed;
      }
      ok := store.Write(WithPlacement(s, made, s.placements[made].(owners := refs[..])));
      if !ok {
        return Failed;
      }
    }
    ok := store.Write(store.space.(strategies := store.space.strategies - {name}));
    outcome := if ok then Done else Failed;
  }

  /** After the strategy is gone, its placement still lists it as an owner exactly when it had other
      owners and was listed last or more than once. */
  lemma OwnerLeftBehind(s: Space, name: string)
    requires HasRealm(s, name) && Made(s, name) in s.placements && name !in Untied(s, name).strategies
    ensures var owners, uid := s.placements[Made(s, name)].owners, s.strategies[name].uid;
            && Made(s, name) in Untied(s, name).placements
            && (uid in Untied(s, name).placements[Made(s, name)].owners <==>
                  uid in owners && (multiset(owners)[uid] > 1 || owners[|owners| - 1] == uid))
  {
    OwnerReferences.RemovedExactly(s.placements[Made(s, name)].owners, s.strategies[name].uid);
  }

  // ----- the owners of a placement -----

  /** The placement that a strategy refers to, if it is there, lists the strategy among its owners. */
  predicate Listed(s: Space, name: string)
    requires name in s.strategies
  {
    var strategy := s.strategies[name];
    strategy.placement in s.placements ==> strategy.uid in s.placements[strategy.placement].owners
  }

  /** The two windows of an update: the strategy refers to a placement made for others, which is not
      written yet; or its placement was missing, and is made while another strategy refers to it. */
  predicate Exposed(s: Space, t: Space, name: string, any: string)
    requires name in s.strategies && any in s.strategies
  {
    HasRealm(s, name) && var made := Made(s, name);
    if any == name then
      && t == Referring(Finalized(s, name), name, made)
      && made in s.placements && s.strategies[name].uid !in s.placements[made].owners
    else
      && made !in s.placements && made in t.placements
      && s.strategies[any].placement == made && s.strategies[any].uid != s.strategies[name].uid
  }

  lemma WantedOwners(s: Space, name: string)
    requires HasRealm(s, name) && RealmOf(s, name).placement in s.placements && !s.strategies[name].stype.Grc?
    ensures s.strategies[name].uid in Wanted(s, name).owners
    ensures Made(s, name) in s.placements ==>
        forall u <- s.placements[Made(s, name)].owners :: u in Wanted(s, name).owners
    ensures Made(s, name) !in s.placements ==> Wanted(s, name).owners == [s.strategies[name].uid]
  {
  }

  /** An update cut short anywhere leaves every strategy listed by its placement, except exactly in the
      two windows. */
  lemma TyingKeepsOwners(s: Space, t: Space, name: string, any: string)
    requires name in s.strategies && TiedInOrder(s, t, name)
    requires any in s.strategies && Listed(s, any)
    ensures any in t.strategies && (Listed(t, any) <==> !Exposed(s, t, name, any))
  {
    if HasRealm(s, name) && RealmOf(s, name).placement in s.placements && !s.strategies[name].stype.Grc? {
      WantedOwners(s, name);
    }
  }

  /** A deletion pass keeps all other strategies listed. */
  lemma UntyingKeepsOwners(s: Space, t: Space, name: string, any: string)
    requires HasRealm(s, name) && UntiedInOrder(s, t, name)
    requires any in s.strategies && any != name && s.strategies[any].uid != s.strategies[name].uid && Listed(s, any)
    ensures any in t.strategies && Listed(t, any)
  {
    var made, uid := Made(s, name), s.strategies[name].uid;
    if made in s.placements {
      OwnerReferences.RemovedExactly(s.placements[made].owners, uid);
      if s.strategies[any].placement == made {
        OthersStay(s.placements[made].owners, uid, s.strategies[any].uid);
      }
    }
  }

  /** Between the two writes of its deletion a strategy is not listed any more, unless it was listed
      twice or at the end. */
  lemma LeaverListed(s: Space, name: string)
    requires HasRealm(s, name) && Made(s, name) in s.placements && s.strategies[name].placement == Made(s, name)
    requires Listed(s, name)
    ensures var owners, uid := s.placements[Made(s, name)].owners, s.strategies[name].uid;
            Listed(WithPlacement(s, Made(s, name), Left(s.placements[Made(s, name)], uid)), name) <==>
              multiset(owners)[uid] > 1 || owners[|owners| - 1] == uid
  {
    OwnerReferences.RemovedExactly(s.placements[Made(s, name)].owners, s.strategies[name].uid);
  }

  lemma OthersStay(owners: seq<string>, uid: string, other: string)
    requires other != uid && other in owners
    ensures other in OwnerReferences.Overwritten(owners, uid)
  {
    OwnerReferences.RemovedExactly(owners, uid);
    if uid in owners {
      assert other in multiset(owners) - multiset{uid};
      assert other in multiset(OwnerReferences.Overwritten(owners, uid));
    }
  }

  /** Deleting the placements of a user's placement that is gone leaves every strategy listed. */
  lemma DeletingKeepsOwners(s: Space, t: Space, ref: string, any: string)
    requires OnlyMadeFrom(s, t, ref) && any in s.strategies && Listed(s, any)
    ensures any in t.strategies && Listed(t, any)
  {
  }
}
