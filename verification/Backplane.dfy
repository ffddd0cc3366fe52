/** Save, Push and Unmanage for a cluster reached through ManifestWorks: the original OAuth is
    collected by a ManagedClusterView, and restored by a work that the agent has to apply. */
module BackplaneManager {
  import opened Kube
  import opened ClusterState
  import opened Aggregation

  // ----- what the three operations do to the namespace -----

  function CollectPass(s: Cluster, writes: nat): Pass
    requires s.view.Some?
  {
    if s.view.value.result.None? then Pass(s, writes, RequeueAfter)
    else
      var t := s.(backup := Some(Backup(s.view.value.result)));
      var p := Written(s, writes, t);
      if p.outcome.Failed? then p else Written(t, p.writes, t.(view := None))
  }

  function SavePass(s: Cluster, writes: nat): Pass {
    if s.backup.Some? then Pass(s, writes, Done)
    else
      var t := s.(view := if s.view.Some? then s.view else Some(View(None)));
      var p := Written(s, writes, t);
      if p.outcome.Failed? then p else CollectPass(t, p.writes)
  }

  /** CreateOrUpdateManifestWork: an existing work keeps its status and its deletion mark. */
  function PutManifests(works: map<string, Work>, name: string, manifests: seq<Manifest>): map<string, Work> {
    works[name := if name in works then works[name].(manifests := manifests) else Work(manifests, None, true, false)]
  }

  /** `done` followed by one secret manifest per name, unless a secret is missing. */
  function SecretManifests(ns: string, secrets: map<string, string>, done: seq<Manifest>,
                           names: seq<string>): Option<seq<Manifest>>
    decreases |names|
  {
    if names == [] then Some(done)
    else if names[0] !in secrets then None
    else SecretManifests(ns, secrets, done + [SecretManifest(PushedName(ns, names[0]), secrets[names[0]])], names[1..])
  }

  /** The aggregated role, the client secrets, then the single OAuth. */
  function PushedManifests(s: Cluster): Option<seq<Manifest>> {
    var m := SecretManifests(s.ns, s.secrets, [AggregatedRole], SecretSources(s.oauths));
    if m.None? then None else Some(m.value + [Document(SingleOAuth(s.ns, s.oauths))])
  }

  function PushPass(s: Cluster, writes: nat): Pass {
    var m := PushedManifests(s);
    if m.None? then Pass(s, writes, Failed)
    else Written(s, writes, s.(works := PutManifests(s.works, OAUTH_WORK, m.value)))
  }

  /** A ConfigMap without a `json` entry reads as the empty text, which converts to `null`. */
  function OriginalDocument(b: Backup): Raw {
    if b.json.Some? then Normalise(b.json.value) else Undecodable("null")
  }

  function OriginalManifests(b: Backup): seq<Manifest> {
    [Document(OriginalDocument(b)), AggregatedRole]
  }

  function DeleteWorkPass(s: Cluster, writes: nat, name: string): Pass {
    if name in s.works && !s.works[name].deleting then Written(s, writes, s.(works := DeletedWork(s.works, name)))
    else Pass(s, writes, Done)
  }

  predicate LastLeaver(s: Cluster) {
    |s.oauths| == 1 && s.oauths[0].deleting
  }

  function RestoreOriginalPass(s: Cluster, writes: nat): Pass
    requires s.backup.Some?
  {
    var t := s.(works := PutManifests(s.works, ORIGINAL_WORK, OriginalManifests(s.backup.value)));
    var p := Written(s, writes, t);
    if p.outcome.Failed? then p
    else if t.works[ORIGINAL_WORK].applied.None? then Pass(t, p.writes, Failed)
    else Written(t, p.writes, t.(backup := None))
  }

  function RestorePass(s: Cluster, writes: nat): Pass {
    var p := DeleteWorkPass(s, writes, OAUTH_WORK);
    if p.outcome.Failed? then p
    else
      var q := if s.backup.None? then p else RestoreOriginalPass(p.after, p.writes);
      if q.outcome.Failed? then q else DeleteWorkPass(q.after, q.writes, ORIGINAL_WORK)
  }

  function UnmanagePass(s: Cluster, writes: nat): Pass {
    if LastLeaver(s) then RestorePass(s, writes) else PushPass(s, writes)
  }

  // ----- the operations themselves -----

  method Save(store: ClusterStore) returns (outcome: Outcome)
    modifies store
    ensures Pass(store.State(), store.writes, outcome) == SavePass(old(store.State()), old(store.writes))
  {
    if store.backup.Some? {
      return Done;
    }
    var ok := store.ApplyView();
    if !ok {
      return Failed;
    }
    if store.view.value.result.None? {
      return RequeueAfter;
    }
    ok := store.CreateBackup(Backup(store.view.value.result));
    if !ok {
      return Failed;
    }
    ok := store.DeleteView();
    outcome := if ok then Done else Failed;
  }

  method CreateOrUpdateManifestWork(store: ClusterStore, name: string, manifests: seq<Manifest>) returns (ok: bool)
    modifies store
    ensures Pass(store.State(), store.writes, if ok then Done else Failed) ==
            Written(old(store.State()), old(store.writes),
                old(store.State()).(works := PutManifests(old(store.works), name, manifests)))
  {
    var work := Work(manifests, None, true, false);
    if name in store.works {
      work := store.works[name].(manifests := manifests);
    }
    ok := store.PutWork(name, work);
  }

  /** The body of the loop over the list, for a live ClusterOAuth. */
  method AddSecretsOf(store: ClusterStore, c: ClusterOAuth, manifests: seq<Manifest>, ghost rest: seq<string>)
    returns (manifests': seq<Manifest>, ok: bool)
    ensures var names := Repeated(c.name, |c.providers|) + rest;
            SecretManifests(store.ns, store.secrets, manifests, names) ==
            if ok then SecretManifests(store.ns, store.secrets, manifests', rest) else None
  {
    var ns, secrets := store.ns, store.secrets;
    manifests' := manifests;
    ghost var all := SecretManifests(ns, secrets, manifests, Repeated(c.name, |c.providers|) + rest);
    for j := 0 to |c.providers|
      invariant SecretManifests(ns, secrets, manifests', Repeated(c.name, |c.providers| - j) + rest) == all
    {
      ghost var names := Repeated(c.name, |c.providers| - j) + rest;
      assert names[0] == c.name && names[1..] == Repeated(c.name, |c.providers| - j - 1) + rest;
      if c.name !in secrets {
        ok := false;
        return;
      }
      manifests' := manifests' + [SecretManifest(ns + "-" + c.name, secrets[c.name])];
    }
    assert Repeated(c.name, 0) + rest == rest;
    ok := true;
  }

  method Push(store: ClusterStore) returns (ok: bool)
    modifies store
    ensures Pass(store.State(), store.writes, if ok then Done else Failed) ==
        PushPass(old(store.State()), old(store.writes))
  {
    var oauths := store.oauths;
    var data := BuildSingleOAuth(oauths, store.ns);
    var manifests := [AggregatedRole];
    for i := 0 to |oauths|
      invariant store.State() == old(store.State()) && store.writes == old(store.writes)
      invariant SecretManifests(store.ns, store.secrets, manifests, SecretSources(oauths[i..])) ==
                SecretManifests(store.ns, store.secrets, [AggregatedRole], SecretSources(oauths))
    {
      var c := oauths[i];
      assert oauths[i..][0] == c && oauths[i..][1..] == oauths[i + 1..];
      if c.deleting {
        assert SecretSources(oauths[i..]) == SecretSources(oauths[i + 1..]);
      } else {
        manifests, ok := AddSecretsOf(store, c, manifests, SecretSources(oauths[i + 1..]));
        if !ok {
          return;
        }
      }
    }
    manifests := manifests + [Document(data)];
    ok := CreateOrUpdateManifestWork(store, OAUTH_WORK, manifests);
  }

  method DeleteManifestWork(store: ClusterStore, name: string) returns (ok: bool)
    modifies store
    ensures Pass(store.State(), store.writes, if ok then Done else Failed) ==
        DeleteWorkPass(old(store.State()), old(store.writes), name)
  {
    ok := true;
    if name in store.works && !store.works[name].deleting {
      ok := store.DeleteWork(name);
    }
  }

  method Unmanage(store: ClusterStore) returns (outcome: Outcome)
    modifies store
    ensures Pass(store.State(), store.writes, outcome) == UnmanagePass(old(store.State()), old(store.writes))
  {
    if |store.oauths| == 1 && store.oauths[0].deleting {
      var ok := DeleteManifestWork(store, OAUTH_WORK);
      if !ok {
        return Failed;
      }
      if store.backup.Some? {
        ok := CreateOrUpdateManifestWork(store, ORIGINAL_WORK, OriginalManifests(store.backup.value));
        if !ok {
          return Failed;
        }
        if store.works[ORIGINAL_WORK].applied.None? {
          return Failed;
        }
        ok := store.DeleteBackup();
        if !ok {
          return Failed;
        }
      }
      ok := DeleteManifestWork(store, ORIGINAL_WORK);
      return if ok then Done else Failed;
    }
    var ok := Push(store);
    outcome := if ok then Done else Failed;
  }
}
