/** The names that tie an AuthRealm to its Dex namespace, clients, secrets and strategies. */
module Names {
  import opened Kube

  const OPERATOR_NAMESPACE := "idp-mgmt-dex"

  const DEX_SERVER := "dex-server"

  function DexServerNamespace(subDomain: string): string {
    "idp-mgmt" + "-" + subDomain
  }

  function DexClientName(realmName: string, cluster: string): string {
    cluster + "-" + realmName
  }

  function ClusterOAuthName(realm: Key): string {
    realm.name + "-" + realm.namespace
  }

  function ClientSecretName(realm: Key): string {
    ClusterOAuthName(realm)
  }

  function TypeName(t: StrategyType): string {
    match t
    case Backplane => "backplane"
    case Hypershift => "hypershift"
    case Grc => "grc"
  }

  function StrategyName(realmName: string, t: StrategyType): string {
    realmName + "-" + TypeName(t)
  }

  /** The redirect URI ends with the name of the provider that calls back. */
  function RedirectURI(host: string, realmName: string): string {
    host + "/oauth2callback/" + realmName
  }

  /** It begins with the host, and no other provider of that host is called back there. */
  lemma RedirectCallsBack(host: string, a: string, b: string)
    ensures var uri := RedirectURI(host, a);
            host <= uri && |uri| >= |host| + |a| && uri[|uri| - |a|..] == a
    ensures RedirectURI(host, a) == RedirectURI(host, b) <==> a == b
  {
    var x, y := RedirectURI(host, a), RedirectURI(host, b);
    assert x[|host| + |"/oauth2callback/"|..] == a && y[|host| + |"/oauth2callback/"|..] == b;
  }

  lemma DexServerNamespaceInjective(a: string, b: string)
    ensures DexServerNamespace(a) == DexServerNamespace(b) <==> a == b
    ensures DexServerNamespace(a) == OPERATOR_NAMESPACE <==> a == "dex"
  {
    assert DexServerNamespace(a)[9..] == a && DexServerNamespace(b)[9..] == b;
    assert OPERATOR_NAMESPACE == "idp-mgmt" + "-" + "dex" && OPERATOR_NAMESPACE[9..] == "dex";
  }

  lemma DexClientNameInjective(realmName: string, a: string, b: string)
    ensures DexClientName(realmName, a) == DexClientName(realmName, b) <==> a == b
  {
    var x, y := DexClientName(realmName, a), DexClientName(realmName, b);
    assert x[..|x| - |realmName| - 1] == a && y[..|y| - |realmName| - 1] == b;
  }

  /** No two strategies share a name, whatever dashes the realm names contain. */
  lemma StrategyNameInjective(a: string, t: StrategyType, b: string, u: StrategyType)
    ensures StrategyName(a, t) == StrategyName(b, u) <==> a == b && t == u
  {
    var x, y := StrategyName(a, t), StrategyName(b, u);
    assert x[|x| - 1] == TypeName(t)[|TypeName(t)| - 1] && y[|y| - 1] == TypeName(u)[|TypeName(u)| - 1];
    if x == y {
      assert t == u;
      assert x[..|x| - |TypeName(t)| - 1] == a && y[..|y| - |TypeName(u)| - 1] == b;
    }
  }

  lemma StrategyNameLonger(a: string, t: StrategyType)
    ensures |StrategyName(a, t)| > |a|
  {
  }

  /** Names of ClusterOAuths and client secrets do tell realms of one namespace apart, but not
      realms of different namespaces. */
  lemma ClusterOAuthNameInjective(a: Key, b: Key)
    requires a.namespace == b.namespace || a.name == b.name
    ensures ClusterOAuthName(a) == ClusterOAuthName(b) <==> a == b
  {
    var x, y := ClusterOAuthName(a), ClusterOAuthName(b);
    assert x[..|a.name|] == a.name && x[|a.name| + 1..] == a.namespace;
    assert y[..|b.name|] == b.name && y[|b.name| + 1..] == b.namespace;
  }

  lemma ClusterOAuthNamesClash()
    ensures ClusterOAuthName(Key("c", "a-b")) == ClusterOAuthName(Key("b-c", "a"))
  {
    assert "a-b" + "-" + "c" == "a" + "-" + "b-c";
  }
}
