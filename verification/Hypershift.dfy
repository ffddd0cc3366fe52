/** Save, Push and Unmanage for a hosted cluster: the OAuth is an item in the configuration of its
    HypershiftDeployment, edited in place and written back. */
module HypershiftManager {
  import opened Kube
  import opened ClusterState
  import opened Aggregation

  const OAUTH_NAME := "cluster"

  /** The index of the first item named `name`, whatever its kind, or -1. */
  function FirstNamed(items: seq<Raw>, name: string): (i: int)
    ensures -1 <= i < |items|
    ensures i >= 0 ==> Named(items[i], name) && forall k :: 0 <= k < i ==> !Named(items[k], name)
    ensures i == -1 ==> forall k :: 0 <= k < |items| ==> !Named(items[k], name)
  {
    if items == [] then -1
    else if Named(items[0], name) then 0
    else
      var i := FirstNamed(items[1..], name);
      if i == -1 then -1 else i + 1
  }

  lemma FirstNamedUnique(items: seq<Raw>, name: string, i: nat)
    requires i < |items| && Named(items[i], name)
    requires forall k :: 0 <= k < i ==> !Named(items[k], name)
    ensures FirstNamed(items, name) == i
  {
    var j := FirstNamed(items, name);
    assert j != -1;
  }

  // ----- what the three operations do to the namespace -----

  function BackupOf(items: seq<Raw>): Backup {
    var i := FirstNamed(items, OAUTH_NAME);
    Backup(if i == -1 then None else Some(Normalise(items[i])))
  }

  function SavePass(s: Cluster, writes: nat): Pass {
    if s.backup.Some? then Pass(s, writes, Done)
    else if |s.deployments| != 1 then Pass(s, writes, Failed)
    else Written(s, writes, s.(backup := Some(BackupOf(s.deployments[0].Items()))))
  }

  function PushedItems(items: seq<Raw>, data: Raw): seq<Raw> {
    var i := FirstNamed(items, OAUTH_NAME);
    if i == -1 then items + [data] else items[i := data]
  }

  datatype Copy = Copy(copied: map<string, string>, writes: nat, ok: bool)

  /** The secrets called `names` written one by one under their pushed names, until one is missing
      or the writes run out. */
  function CopySecrets(ns: string, secrets: map<string, string>, copied: map<string, string>, names: seq<string>,
                       writes: nat): Copy
    decreases |names|
  {
    if names == [] then Copy(copied, writes, true)
    else if names[0] !in secrets then Copy(copied, writes, false)
    else if writes == 0 then Copy(copied, 0, false)
    else CopySecrets(ns, secrets, copied[PushedName(ns, names[0]) := secrets[names[0]]], names[1..], writes - 1)
  }

  /** The references after the loop over the list: a live ClusterOAuth that is not referenced yet
      gets one reference per provider. */
  function PushedRefs(ns: string, refs: seq<string>, oauths: seq<ClusterOAuth>): seq<string>
    decreases |oauths|
  {
    if oauths == [] then refs else PushedRefs(ns, RefsAfter(ns, refs, oauths[0]), oauths[1..])
  }

  function RefsAfter(ns: string, refs: seq<string>, c: ClusterOAuth): seq<string> {
    if c.deleting || PushedName(ns, c.name) in refs then refs
    else refs + Repeated(PushedName(ns, c.name), |c.providers|)
  }

  function PushedDeployment(s: Cluster): Deployment
    requires |s.deployments| == 1
  {
    var d := s.deployments[0];
    Deployment(Some(Configuration(
      PushedItems(d.Items(), SingleOAuth(s.ns, s.oauths)),
      PushedRefs(s.ns, d.SecretRefs(), s.oauths))))
  }

  function PushPass(s: Cluster, writes: nat): Pass {
    if !s.managed || |s.deployments| != 1 then Pass(s, writes, Failed)
    else
      var c := CopySecrets(s.ns, s.secrets, s.copied, SecretSources(s.oauths), writes);
      var t := s.(copied := c.copied);
      if !c.ok then Pass(t, c.writes, Failed)
      else Written(t, c.writes, t.(deployments := [PushedDeployment(s)]))
  }

  /** The saved OAuth back at its index or, when none was saved, the last item moved there. */
  function RestoredItems(items: seq<Raw>, i: nat, b: Backup): seq<Raw>
    requires i < |items|
  {
    if b.json.Some? then items[i := b.json.value]
    else items[i := items[|items| - 1]][..|items| - 1]
  }

  predicate LastLeaver(s: Cluster) {
    |s.oauths| == 1 && s.oauths[0].deleting
  }

  function RestorePass(s: Cluster, writes: nat): Pass {
    if |s.deployments| != 1 then Pass(s, writes, Failed)
    else
      var d := s.deployments[0];
      var i := FirstNamed(d.Items(), OAUTH_NAME);
      if i == -1 || s.backup.None? then Pass(s, writes, Done)
      else
        var t := s.(deployments := [Deployment(Some(Configuration(RestoredItems(d.Items(), i, s.backup.value),
            d.SecretRefs())))]);
        var p := Written(s, writes, t);
        if p.outcome.Failed? then p else Written(t, p.writes, t.(backup := None))
  }

  function UnmanagePass(s: Cluster, writes: nat): Pass {
    if LastLeaver(s) then RestorePass(s, writes) else PushPass(s, writes)
  }

  // ----- the operations themselves -----

  /** A HypershiftDeployment as read from the API server: edited here, then written back. */
  class HypershiftDeployment {
    var configuration: Option<Configuration>

    constructor (d: Deployment)
      ensures configuration == d.configuration
    {
      configuration := d.configuration;
    }

    /** searchConfiguration: also gives the object a configuration when it has none. */
    method SearchConfiguration(name: string) returns (index: int)
      modifies this
      ensures configuration.Some?
      ensures configuration.value.items == old(Deployment(configuration).Items())
      ensures configuration.value.secretRefs == old(Deployment(configuration).SecretRefs())
      ensures index == FirstNamed(configuration.value.items, name)
    {
      if configuration.None? {
        configuration := Some(Configuration([], []));
        return -1;
      }
      var items := configuration.value.items;
      for i := 0 to |items|
        invariant forall k :: 0 <= k < i ==> !Named(items[k], name)
      {
        match items[i] {
          case Undecodable(_) =>
          case Decodable(_, existing, _, _) =>
            if existing == name {
              FirstNamedUnique(items, name, i);
              return i;
            }
        }
      }
      index := -1;
    }
  }

  /** getHypershiftDeployment: an error unless exactly one is labelled with the cluster. */
  method GetDeployment(store: ClusterStore) returns (hd: HypershiftDeployment?)
    ensures hd != null <==> |store.deployments| == 1
    ensures hd != null ==> fresh(hd) && hd.configuration == store.deployments[0].configuration
  {
    hd := null;
    if |store.deployments| == 1 {
      hd := new HypershiftDeployment(store.deployments[0]);
    }
  }

  method Save(store: ClusterStore) returns (outcome: Outcome)
    modifies store
    ensures Pass(store.State(), store.writes, outcome) == SavePass(old(store.State()), old(store.writes))
  {
    if store.backup.Some? {
      return Done;
    }
    var hd := GetDeployment(store);
    if hd == null {
      return Failed;
    }
    var index := hd.SearchConfiguration(OAUTH_NAME);
    var cm := Backup(None);
    if index != -1 {
      cm := Backup(Some(Normalise(hd.configuration.value.items[index])));
    }
    var ok := store.CreateBackup(cm);
    outcome := if ok then Done else Failed;
  }

  /** Create the copy of a secret or, when it exists, update it. */
  method CopySecret(store: ClusterStore, name: string) returns (ok: bool)
    modifies store
    ensures var s, c := old(store.State()),
        CopySecrets(store.ns, old(store.secrets), old(store.copied), [name], old(store.writes));
            store.State() == s.(copied := c.copied) && store.writes == c.writes && ok == c.ok
  {
    if name !in store.secrets {
      return false;
    }
    var taken;
    taken, ok := store.CreateCopied(store.ns + "-" + name, store.secrets[name]);
    if taken {
      ok := store.UpdateCopied(store.ns + "-" + name, store.secrets[name]);
    }
  }

  /** The first copy, then the others. */
  lemma CopiesInTurn(ns: string, secrets: map<string, string>, copied: map<string, string>, names: seq<string>,
                     writes: nat)
    requires names != []
    ensures var one := CopySecrets(ns, secrets, copied, [names[0]], writes);
            CopySecrets(ns, secrets, copied, names, writes) ==
            if one.ok then CopySecrets(ns, secrets, one.copied, names[1..], one.writes) else one
  {
    assert [names[0]][1..] == [];
  }

  lemma RepeatedNext(name: string, n: nat, rest: seq<string>)
    requires n > 0
    ensures (Repeated(name, n) + rest)[0] == name && (Repeated(name, n) + rest)[1..] == Repeated(name, n - 1) + rest
  {
  }

  lemma RepeatedOnce(name: string, n: nat)
    ensures Repeated(name, n) + [name] == Repeated(name, n + 1)
  {
  }

  /** The body of the loop over the list, for a live ClusterOAuth. */
  method CopySecretsOf(store: ClusterStore, c: ClusterOAuth, refs: seq<string>, ghost rest: seq<string>)
    returns (refs': seq<string>, ok: bool)
    requires !c.deleting
    modifies store
    ensures store.State() == old(store.State()).(copied := store.copied)
    ensures var names := Repeated(c.name, |c.providers|) + rest;
            var copy := CopySecrets(store.ns, old(store.secrets), old(store.copied), names, old(store.writes));
            if ok then copy == CopySecrets(store.ns, store.secrets, store.copied, rest, store.writes)
            else copy == Copy(store.copied, store.writes, false)
    ensures ok ==> refs' == RefsAfter(store.ns, refs, c)
  {
    var ns := store.ns;
    ghost var s := store.State();
    ghost var copy := CopySecrets(ns, store.secrets, store.copied, Repeated(c.name, |c.providers|) + rest,
        store.writes);
    var found := ns + "-" + c.name in refs;
    refs' := refs;
    for j := 0 to |c.providers|
      invariant store.State() == s.(copied := store.copied)
      invariant CopySecrets(ns, store.secrets, store.copied, Repeated(c.name, |c.providers| - j) + rest,
          store.writes) == copy
      invariant refs' == if found then refs else refs + Repeated(PushedName(ns, c.name), j)
    {
      RepeatedNext(c.name, |c.providers| - j, rest);
      CopiesInTurn(ns, store.secrets, store.copied, Repeated(c.name, |c.providers| - j) + rest, store.writes);
      ok := CopySecret(store, c.name);
      if !ok {
        return;
      }
      if !found {
        RepeatedOnce(PushedName(ns, c.name), j);
        refs' := refs' + [ns + "-" + c.name];
      }
    }
    assert Repeated(c.name, 0) + rest == rest;
    ok := true;
  }

  method Push(store: ClusterStore) returns (ok: bool)
    modifies store
    ensures Pass(store.State(), store.writes, if ok then Done else Failed) ==
        PushPass(old(store.State()), old(store.writes))
  {
    if !store.managed {
      return false;
    }
    var oauths, ns := store.oauths, store.ns;
    var data := BuildSingleOAuth(oauths, ns);
    var hd := GetDeployment(store);
    if hd == null {
      return false;
    }
    var index := hd.SearchConfiguration(OAUTH_NAME);
    var items := hd.configuration.value.items;
    if index == -1 {
      items := items + [data];
    } else {
      items := items[index := data];
    }
    var refs := hd.configuration.value.secretRefs;
    refs, ok := CopyAllSecrets(store, oauths, refs);
    if ok {
      hd.configuration := Some(Configuration(items, refs));
      ok := store.UpdateDeployment(Deployment(hd.configuration));
    }
  }

  /** The loop over the list. */
  method CopyAllSecrets(store: ClusterStore, oauths: seq<ClusterOAuth>, refs: seq<string>)
    returns (refs': seq<string>, ok: bool)
    modifies store
    ensures store.State() == old(store.State()).(copied := store.copied)
    ensures CopySecrets(store.ns, old(store.secrets), old(store.copied), SecretSources(oauths), old(store.writes))
            == Copy(store.copied, store.writes, ok)
    ensures ok ==> refs' == PushedRefs(store.ns, refs, oauths)
  {
    var ns := store.ns;
    ghost var s := store.State();
    ghost var copy := CopySecrets(ns, store.secrets, store.copied, SecretSources(oauths), store.writes);
    refs' := refs;
    for i := 0 to |oauths|
      invariant store.State() == s.(copied := store.copied)
      invariant CopySecrets(ns, store.secrets, store.copied, SecretSources(oauths[i..]), store.writes) == copy
      invariant PushedRefs(ns, refs', oauths[i..]) == PushedRefs(ns, refs, oauths)
    {
      var c := oauths[i];
      assert oauths[i..][0] == c && oauths[i..][1..] == oauths[i + 1..];
      if c.deleting {
        assert SecretSources(oauths[i..]) == SecretSources(oauths[i + 1..]);
      } else {
        refs', ok := CopySecretsOf(store, c, refs', SecretSources(oauths[i + 1..]));
        if !ok {
          return;
        }
      }
    }
    ok := true;
  }

  method Unmanage(store: ClusterStore) returns (outcome: Outcome)
    modifies store
    ensures Pass(store.State(), store.writes, outcome) == UnmanagePass(old(store.State()), old(store.writes))
  {
    if |store.oauths| == 1 && store.oauths[0].deleting {
      var hd := GetDeployment(store);
      if hd == null {
        return Failed;
      }
      var index := hd.SearchConfiguration(OAUTH_NAME);
      if index == -1 {
        return Done;
      }
      if store.backup.None? {
        return Done;
      }
      var items := hd.configuration.value.items;
      if store.backup.value.json.Some? {
        items := items[index := store.backup.value.json.value];
      } else {
        items := items[index := items[|items| - 1]];
        items := items[..|items| - 1];
      }
      hd.configuration := Some(hd.configuration.value.(items := items));
      var ok := store.UpdateDeployment(Deployment(hd.configuration));
      if !ok {
        return Failed;
      }
      ok := store.DeleteBackup();
      return if ok then Done else Failed;
    }
    var ok := Push(store);
    outcome := if ok then Done else Failed;
  }
}
