/** Rewriting of a user's placement into one placement for ordinary clusters and one for hosted ones. */
module StrategyPlacement {
  import opened Kube

  datatype Operator = In | NotIn | Exists | DoesNotExist

  datatype Requirement = Requirement(key: string, operator: Operator, values: seq<string>)

  /** The claim expressions, label expressions and match labels of one predicate, all to be met. */
  datatype Selector = Selector(claims: seq<Requirement>, labels: seq<Requirement>, matchLabels: map<string, string>)

  datatype ManagedCluster = ManagedCluster(labels: map<string, string>, claims: map<string, string>)

  // ----- what a placement selects -----

  predicate Meets(values: map<string, string>, r: Requirement) {
    match r.operator
    case In => r.key in values && values[r.key] in r.values
    case NotIn => r.key !in values || values[r.key] !in r.values
    case Exists => r.key in values
    case DoesNotExist => r.key !in values
  }

  predicate MeetsAll(values: map<string, string>, rs: seq<Requirement>) {
    forall r <- rs :: Meets(values, r)
  }

  predicate MeetsLabels(c: ManagedCluster, labels: map<string, string>) {
    forall k :: k in labels ==> k in c.labels && c.labels[k] == labels[k]
  }

  predicate MeetsExpressions(c: ManagedCluster, p: Selector) {
    MeetsAll(c.claims, p.claims) && MeetsAll(c.labels, p.labels)
  }

  predicate Matches(c: ManagedCluster, p: Selector) {
    MeetsExpressions(c, p) && MeetsLabels(c, p.matchLabels)
  }

  /** Predicates are alternatives, and a placement without predicates selects every cluster. */
  predicate Selects(predicates: seq<Selector>, c: ManagedCluster) {
    predicates == [] || exists p <- predicates :: Matches(c, p)
  }

  // ----- the rewriting -----

  const HOSTED_CLAIM := "hostedcluster.hypershift.openshift.io"

  function HostedCluster(): Requirement {
    Requirement(HOSTED_CLAIM, In, ["true"])
  }

  function NotHostedCluster(): Requirement {
    Requirement(HOSTED_CLAIM, NotIn, ["true"])
  }

  function Alone(r: Requirement): Selector {
    Selector([r], [], map[])
  }

  /** `base` with the expressions of every user predicate, and the match labels of the last. */
  function Enriched(base: Selector, user: seq<Selector>): Selector {
    if user == [] then base
    else
      var e, last := Enriched(base, user[..|user| - 1]), user[|user| - 1];
      Selector(e.claims + last.claims, e.labels + last.labels, last.matchLabels)
  }

  class Placement {
    var predicates: seq<Selector>

    constructor (predicates: seq<Selector>)
      ensures this.predicates == predicates
    {
      this.predicates := predicates;
    }

    method AddUserDefinedSelectors(user: seq<Selector>)
      requires |predicates| > 0
      modifies this
      ensures predicates == old(predicates)[0 := Enriched(old(predicates)[0], user)]
    {
      for i := 0 to |user|
        invariant predicates == old(predicates)[0 := Enriched(old(predicates)[0], user[..i])]
      {
        var claims := predicates[0].claims + user[i].claims;
        var labels := predicates[0].labels + user[i].labels;
        predicates := predicates[0 := predicates[0].(claims := claims)];
        predicates := predicates[0 := predicates[0].(labels := labels)];
        predicates := predicates[0 := predicates[0].(matchLabels := user[i].matchLabels)];
        assert user[..i + 1][..i] == user[..i];
      }
      assert user[..|user|] == user;
    }

    method BackplanePlacement(user: seq<Selector>)
      modifies this
      ensures predicates == [Enriched(Alone(NotHostedCluster()), user)]
    {
      predicates := [Alone(NotHostedCluster())];
      AddUserDefinedSelectors(user);
    }

    method HypershiftPlacement(user: seq<Selector>)
      modifies this
      ensures predicates == [Enriched(Alone(HostedCluster()), user)]
    {
      predicates := [Alone(HostedCluster())];
      AddUserDefinedSelectors(user);
    }

    /** The choice by strategy type; false is the error for any other type. Whatever the placement
        selected before, it selects Rewritten(t, user) now. */
    method Enrich(t: StrategyType, user: seq<Selector>) returns (ok: bool)
      modifies this
      ensures ok <==> !t.Grc?
      ensures predicates == if ok then Rewritten(t, user) else old(predicates)
    {
      match t
      case Backplane => BackplanePlacement(user); ok := true;
      case Hypershift => HypershiftPlacement(user); ok := true;
      case Grc => ok := false;
    }
  }

  function Rewritten(t: StrategyType, user: seq<Selector>): seq<Selector>
    requires !t.Grc?
  {
    [Enriched(Alone(if t.Hypershift? then HostedCluster() else NotHostedCluster()), user)]
  }

  // ----- what the rewriting means -----

  lemma MeetsBoth(values: map<string, string>, a: seq<Requirement>, b: seq<Requirement>)
    ensures MeetsAll(values, a + b) <==> MeetsAll(values, a) && MeetsAll(values, b)
  {
    assert forall r :: r in a + b <==> r in a || r in b;
  }

  lemma LastToo(c: ManagedCluster, user: seq<Selector>)
    requires user != []
    ensures (forall p <- user :: MeetsExpressions(c, p)) <==>
              (forall p <- user[..|user| - 1] :: MeetsExpressions(c, p)) && MeetsExpressions(c, user[|user| - 1])
  {
    assert user == user[..|user| - 1] + [user[|user| - 1]];
    assert forall p :: p in user <==> p in user[..|user| - 1] || p == user[|user| - 1];
  }

  lemma {:induction false} EnrichedMeets(c: ManagedCluster, base: Selector, user: seq<Selector>)
    ensures MeetsExpressions(c, Enriched(base, user)) <==>
              MeetsExpressions(c, base) && forall p <- user :: MeetsExpressions(c, p)
    ensures Enriched(base, user).matchLabels == if user == [] then base.matchLabels else user[|user| - 1].matchLabels
  {
    if user != [] {
      var front, last := user[..|user| - 1], user[|user| - 1];
      EnrichedMeets(c, base, front);
      MeetsBoth(c.claims, Enriched(base, front).claims, last.claims);
      MeetsBoth(c.labels, Enriched(base, front).labels, last.labels);
      var e := Enriched(base, front);
      assert Enriched(base, user) == Selector(e.claims + last.claims, e.labels + last.labels, last.matchLabels);
      LastToo(c, user);
    }
  }

  predicate Hosted(c: ManagedCluster) {
    HOSTED_CLAIM in c.claims && c.claims[HOSTED_CLAIM] == "true"
  }

  /** A cluster meets every expression of the user's predicates, and the match labels of the last. */
  predicate MeetsEverything(c: ManagedCluster, user: seq<Selector>) {
    (forall p <- user :: MeetsExpressions(c, p)) && (user != [] ==> MeetsLabels(c, user[|user| - 1].matchLabels))
  }

  /** Exactly what a rewritten placement selects. */
  lemma RewrittenSelects(t: StrategyType, user: seq<Selector>, c: ManagedCluster)
    requires !t.Grc?
    ensures Selects(Rewritten(t, user), c) <==> (Hosted(c) <==> t.Hypershift?) && MeetsEverything(c, user)
  {
    var r := if t.Hypershift? then HostedCluster() else NotHostedCluster();
    EnrichedMeets(c, Alone(r), user);
    assert Enriched(Alone(r), user) in Rewritten(t, user);
    assert r in Alone(r).claims && (Meets(c.claims, r) <==> (Hosted(c) <==> t.Hypershift?)) by {
      assert forall v :: v in ["true"] <==> v == "true";
    }
    assert MeetsLabels(c, map[]);
  }

  /** For any number of user predicates: no cluster is selected for both strategies, each is selected
      by the user as well, and together they leave out exactly the clusters of the user's selection
      that miss an expression of another predicate or the match labels of the last. */
  lemma RewritingDivides(user: seq<Selector>, c: ManagedCluster)
    ensures !(Selects(Rewritten(Backplane, user), c) && Selects(Rewritten(Hypershift, user), c))
    ensures Selects(Rewritten(Backplane, user), c) || Selects(Rewritten(Hypershift, user), c) <==>
              Selects(user, c) && MeetsEverything(c, user)
  {
    RewrittenSelects(Backplane, user, c);
    RewrittenSelects(Hypershift, user, c);
    if MeetsEverything(c, user) && user != [] {
      assert Matches(c, user[|user| - 1]);
    }
  }

  /** With at most one user predicate nothing is left out. */
  lemma OnePredicateIsExact(user: seq<Selector>, c: ManagedCluster)
    requires |user| <= 1
    ensures Selects(Rewritten(Backplane, user), c) || Selects(Rewritten(Hypershift, user), c) <==> Selects(user, c)
  {
    RewritingDivides(user, c);
    if Selects(user, c) && user != [] {
      assert user == [user[0]];
    }
  }

  /** The rewriting of a list selects what the user selects exactly when every cluster of that selection
      meets the expressions of all predicates and the match labels of the last. */
  lemma ExactForAll(user: seq<Selector>)
    ensures (forall c :: Selects(Rewritten(Backplane, user), c) || Selects(Rewritten(Hypershift, user), c) <==>
        Selects(user, c)) <==>
              (forall c :: Selects(user, c) ==> MeetsEverything(c, user))
  {
    forall c
      ensures Selects(Rewritten(Backplane, user), c) || Selects(Rewritten(Hypershift, user), c) <==>
                Selects(user, c) && MeetsEverything(c, user)
    {
      RewritingDivides(user, c);
    }
  }

  /** With two predicates it can leave a cluster out: alternatives have become conditions. */
  lemma TwoPredicatesLoseClusters(user: seq<Selector>, c: ManagedCluster)
    requires user == [Selector([], [Requirement("env", In, ["dev"])], map[]),
        Selector([], [Requirement("env", In, ["prod"])], map[])]
    requires c == ManagedCluster(map["env" := "dev"], map[])
    ensures Selects(user, c)
    ensures !Selects(Rewritten(Backplane, user), c) && !Selects(Rewritten(Hypershift, user), c)
  {
    assert Matches(c, user[0]);
    assert user[1].labels[0] in user[1].labels && !Meets(c.labels, user[1].labels[0]);
    assert user[1] in user && !MeetsExpressions(c, user[1]);
    RewritingDivides(user, c);
  }
}
