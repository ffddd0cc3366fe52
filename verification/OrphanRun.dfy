/** A run from a hub on which nothing is set up to a ClusterOAuth without DexClient: the cluster is
    decided, no longer decided, and decided again while its DexClient is still being deleted. */
module OrphanRun {
  import opened Kube
  import opened Names
  import opened Hub
  import opened HubInvariant
  import HubLimits
  import ClusterState

  const PLACEMENT := "p"

  /** The realm, the cluster and the rest of what the run is about. */
  datatype Setting = Setting(realm: Key, cluster: string, subDomain: string, host: string, secret: string)
  {
    function Strategy(): Key {
      StrategyKey(realm, Backplane)
    }

    function Client(): Key {
      Key(DexServerNamespace(subDomain), DexClientName(realm.name, cluster))
    }

    function Owners(): seq<string> {
      [StrategyName(realm.name, Backplane)]
    }

    function Redirect(): string {
      RedirectURI(host, realm.name)
    }
  }

  /** A realm that nobody has processed, and a placement that has decided on the cluster. */
  function Start(g: Setting): Hub {
    Hub(map[g.realm := Realm(true, g.subDomain, false, false)], map[],
        map[Key(g.realm.namespace, PLACEMENT) := Placement(g.Owners(), [g.cluster], true, false)],
        map[], map[], map[], map[], map[], None, None, {}, map[g.cluster := g.host], true)
  }

  function Finalized(g: Setting): Hub {
    Start(g).(realms := map[g.realm := Realm(true, g.subDomain, true, false)])
  }

  function WithStrategy(g: Setting, placement: string): Hub {
    Finalized(g).(strategies := map[g.Strategy() := Strategy.Strategy(Backplane, g.realm.name, placement, false,
        false)])
  }

  function WithSecret(g: Setting): Hub {
    WithStrategy(g, PLACEMENT).(secrets := map[SecretKey(g.realm, g.cluster) := g.secret])
  }

  function WithClient(g: Setting, finalizer: bool, deleting: bool): Hub {
    WithSecret(g).(dexClients := map[g.Client() :=
      DexClient(g.cluster, Backplane, DexClientName(g.realm.name, g.cluster), SecretKey(g.realm, g.cluster),
          g.Redirect(), finalizer, deleting)])
  }

  function Undecided(s: Hub, g: Setting): Hub {
    s.(placements := map[Key(g.realm.namespace, PLACEMENT) := Placement(g.Owners(), [], true, false)])
  }

  function Written(g: Setting): ClusterOAuth {
    ClusterOAuth(g.realm, g.Strategy(), g.Client(),
                 ClusterState.Provider(g.realm.name, DexClientName(g.realm.name, g.cluster), ClientSecretName(g.realm)),
                     false, false)
  }

  function WithOAuth(g: Setting): Hub {
    WithClient(g, true, true).(oauths := map[OAuthKey(g.realm, g.cluster) := Written(g)])
  }

  function Orphaned(g: Setting): Hub {
    WithOAuth(g).(dexClients := map[])
  }

  /** Two passes of the AuthRealm controller, and one of the strategy controller. */
  function SettingUp(g: Setting): seq<Action> {
    [ByAuthRealm(FinalizeRealm(g.realm))] + [ByAuthRealm(CreateStrategy(g.realm, Backplane))] +
    [Environment(WithStrategy(g, PLACEMENT))]
  }

  /** A pass of the placement controller, cut short before the ClusterOAuth. */
  function FirstPass(g: Setting): seq<Action> {
    [ByPlacement(CreateSecret(SecretKey(g.realm, g.cluster), g.secret))] +
    [ByPlacement(WriteDexClient(g.realm, g.Strategy(), g.cluster))]
  }

  /** The cluster is no longer decided; a pass deletes the DexClient, which its operator holds. */
  function Deletion(g: Setting): seq<Action> {
    [Environment(Undecided(WithClient(g, true, false), g))] +
    [ByPlacement(DeleteDexClient(g.Client(), Backplane, g.Owners()))]
  }

  /** The cluster is decided again, and a pass writes the DexClient and the ClusterOAuth. */
  function SecondPass(g: Setting): seq<Action> {
    [Environment(WithClient(g, true, true))] + [ByPlacement(WriteDexClient(g.realm, g.Strategy(), g.cluster))] +
    [ByPlacement(WriteOAuth(g.realm, g.Strategy(), g.cluster))]
  }

  function Actions(g: Setting): seq<Action> {
    SettingUp(g) + FirstPass(g) + Deletion(g) + SecondPass(g) + [Environment(Orphaned(g))]
  }

  ghost predicate Leads1(s: Hub, a: Action, t: Hub) {
    Enabled(s, a) && Apply(s, a) == t
  }

  lemma SetsUp(g: Setting)
    requires g.subDomain != "dex"
    ensures Leads1(Start(g), ByAuthRealm(FinalizeRealm(g.realm)), Finalized(g))
    ensures Leads1(Finalized(g), ByAuthRealm(CreateStrategy(g.realm, Backplane)), WithStrategy(g, ""))
    ensures Leads1(WithStrategy(g, ""), Environment(WithStrategy(g, PLACEMENT)), WithStrategy(g, PLACEMENT))
  {
  }

  lemma WritesSecret(g: Setting)
    ensures Leads1(WithStrategy(g, PLACEMENT), ByPlacement(CreateSecret(SecretKey(g.realm, g.cluster), g.secret)),
        WithSecret(g))
  {
  }

  lemma WritesClient(g: Setting)
    ensures Leads1(WithSecret(g), ByPlacement(WriteDexClient(g.realm, g.Strategy(), g.cluster)),
        WithClient(g, false, false))
    ensures Leads1(WithClient(g, true, true), ByPlacement(WriteDexClient(g.realm, g.Strategy(), g.cluster)),
        WithClient(g, true, true))
  {
  }

  /** Placements change, and the DexClients come to be held or, in deletion, go. */
  lemma OthersAct(s: Hub, t: Hub)
    requires WellNamed(s) && t == s.(placements := t.placements, dexClients := t.dexClients)
    requires forall k :: k in t.dexClients ==>
               k in s.dexClients && t.dexClients[k] == s.dexClients[k].(finalizer := t.dexClients[k].finalizer)
    requires forall k :: k in s.dexClients && !s.dexClients[k].deleting ==> k in t.dexClients
    ensures Leads1(s, Environment(t), t)
  {
  }

  lemma NamedWell(g: Setting)
    requires g.subDomain != "dex"
    ensures WellNamed(WithClient(g, false, false)) && WellNamed(Undecided(WithClient(g, true, true), g)) &&
        WellNamed(WithOAuth(g))
  {
  }

  lemma DecidesNoLonger(g: Setting)
    requires g.subDomain != "dex"
    ensures Leads1(WithClient(g, false, false), Environment(Undecided(WithClient(g, true, false), g)),
        Undecided(WithClient(g, true, false), g))
  {
    NamedWell(g);
    OthersAct(WithClient(g, false, false), Undecided(WithClient(g, true, false), g));
  }

  lemma DecidesAgain(g: Setting)
    requires g.subDomain != "dex"
    ensures Leads1(Undecided(WithClient(g, true, true), g), Environment(WithClient(g, true, true)),
        WithClient(g, true, true))
  {
    NamedWell(g);
    OthersAct(Undecided(WithClient(g, true, true), g), WithClient(g, true, true));
  }

  lemma ClientEnds(g: Setting)
    requires g.subDomain != "dex"
    ensures Leads1(WithOAuth(g), Environment(Orphaned(g)), Orphaned(g))
  {
    NamedWell(g);
    OthersAct(WithOAuth(g), Orphaned(g));
  }

  lemma DeletesClient(g: Setting)
    ensures Leads1(Undecided(WithClient(g, true, false), g),
        ByPlacement(DeleteDexClient(g.Client(), Backplane, g.Owners())),
                   Undecided(WithClient(g, true, true), g))
  {
    assert DeletedClient(WithClient(g, true, false).dexClients, g.Client()) == WithClient(g, true, true).dexClients;
  }

  lemma WritesOAuth(g: Setting)
    ensures Leads1(WithClient(g, true, true), ByPlacement(WriteOAuth(g.realm, g.Strategy(), g.cluster)), WithOAuth(g))
  {
  }

  lemma Next(s: Hub, run: seq<Action>, t: Hub, a: Action, u: Hub)
    requires Leads(s, run, t) && Leads1(t, a, u)
    ensures Leads(s, run + [a], u)
  {
    LeadsOne(t, a);
    LeadsThen(s, run, t, [a], u);
  }

  lemma SettingUpLeads(g: Setting)
    requires g.subDomain != "dex"
    ensures Leads(Start(g), SettingUp(g), WithStrategy(g, PLACEMENT))
  {
    SetsUp(g);
    LeadsOne(Start(g), SettingUp(g)[0]);
    Next(Start(g), [SettingUp(g)[0]], Finalized(g), SettingUp(g)[1], WithStrategy(g, ""));
    Next(Start(g), [SettingUp(g)[0]] + [SettingUp(g)[1]], WithStrategy(g, ""), SettingUp(g)[2],
        WithStrategy(g, PLACEMENT));
  }

  lemma FirstPassLeads(g: Setting)
    ensures Leads(WithStrategy(g, PLACEMENT), FirstPass(g), WithClient(g, false, false))
  {
    WritesSecret(g);
    WritesClient(g);
    LeadsOne(WithStrategy(g, PLACEMENT), FirstPass(g)[0]);
    Next(WithStrategy(g, PLACEMENT), [FirstPass(g)[0]], WithSecret(g), FirstPass(g)[1], WithClient(g, false, false));
  }

  lemma DeletionLeads(g: Setting)
    requires g.subDomain != "dex"
    ensures Leads(WithClient(g, false, false), Deletion(g), Undecided(WithClient(g, true, true), g))
  {
    DecidesNoLonger(g);
    DeletesClient(g);
    LeadsOne(WithClient(g, false, false), Deletion(g)[0]);
    Next(WithClient(g, false, false), [Deletion(g)[0]], Undecided(WithClient(g, true, false), g), Deletion(g)[1],
         Undecided(WithClient(g, true, true), g));
  }

  lemma SecondPassLeads(g: Setting)
    requires g.subDomain != "dex"
    ensures Leads(Undecided(WithClient(g, true, true), g), SecondPass(g), WithOAuth(g))
  {
    var s, t := Undecided(WithClient(g, true, true), g), WithClient(g, true, true);
    DecidesAgain(g);
    WritesClient(g);
    WritesOAuth(g);
    LeadsOne(s, SecondPass(g)[0]);
    Next(s, [SecondPass(g)[0]], t, SecondPass(g)[1], t);
    Next(s, [SecondPass(g)[0]] + [SecondPass(g)[1]], t, SecondPass(g)[2], WithOAuth(g));
  }

  /** For any setting, the run starts where nothing is set up, each of its writes is one that the
      controller makes, and it ends with a ClusterOAuth that has no DexClient. */
  lemma ReachesOrphan(g: Setting)
    requires g.subDomain != "dex"
    ensures Inv(Start(g)) && Leads(Start(g), Actions(g), Orphaned(g))
    ensures OAuthKey(g.realm, g.cluster) in Orphaned(g).oauths && !NoOrphans(Orphaned(g))
  {
    HubLimits.HoldsAtFirst(Start(g));
    ActionsLead(g);
    assert !Configured(Orphaned(g), OAuthKey(g.realm, g.cluster));
  }

  lemma ActionsLead(g: Setting)
    requires g.subDomain != "dex"
    ensures Leads(Start(g), Actions(g), Orphaned(g))
  {
    var s, deleting := Start(g), Undecided(WithClient(g, true, true), g);
    SettingUpLeads(g);
    FirstPassLeads(g);
    LeadsThen(s, SettingUp(g), WithStrategy(g, PLACEMENT), FirstPass(g), WithClient(g, false, false));
    DeletionLeads(g);
    LeadsThen(s, SettingUp(g) + FirstPass(g), WithClient(g, false, false), Deletion(g), deleting);
    SecondPassLeads(g);
    LeadsThen(s, SettingUp(g) + FirstPass(g) + Deletion(g), deleting, SecondPass(g), WithOAuth(g));
    ClientEnds(g);
    Next(s, SettingUp(g) + FirstPass(g) + Deletion(g) + SecondPass(g), WithOAuth(g), Environment(Orphaned(g)),
        Orphaned(g));
  }
}
