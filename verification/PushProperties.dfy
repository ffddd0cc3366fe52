/** What one push guarantees: it can be repeated, and every secret it names is there. */
module PushProperties {
  import opened Kube
  import opened ClusterState
  import opened Aggregation
  import H = HypershiftManager
  import B = BackplaneManager

  // ----- a second push changes nothing -----

  lemma PushedItemsTwice(items: seq<Raw>, data: Raw)
    requires Named(data, H.OAUTH_NAME)
    ensures H.PushedItems(H.PushedItems(items, data), data) == H.PushedItems(items, data)
  {
    var once := H.PushedItems(items, data);
    var i := H.FirstNamed(items, H.OAUTH_NAME);
    H.FirstNamedUnique(once, H.OAUTH_NAME, if i == -1 then |items| else i);
  }

  lemma {:induction false} RefsGrow(ns: string, refs: seq<string>, oauths: seq<ClusterOAuth>)
    ensures refs <= H.PushedRefs(ns, refs, oauths)
    decreases |oauths|
  {
    if oauths != [] {
      RefsGrow(ns, H.RefsAfter(ns, refs, oauths[0]), oauths[1..]);
    }
  }

  /** Every live ClusterOAuth with a provider ends up referenced. */
  lemma {:induction false} RefsComplete(ns: string, refs: seq<string>, oauths: seq<ClusterOAuth>, c: ClusterOAuth)
    requires c in oauths && !c.deleting && c.providers != []
    ensures PushedName(ns, c.name) in H.PushedRefs(ns, refs, oauths)
    decreases |oauths|
  {
    var next := H.RefsAfter(ns, refs, oauths[0]);
    if c == oauths[0] {
      RefsGrow(ns, next, oauths[1..]);
      assert PushedName(ns, c.name) !in refs ==>
          Repeated(PushedName(ns, c.name), |c.providers|)[0] == PushedName(ns, c.name);
      assert PushedName(ns, c.name) in next;
    } else {
      RefsComplete(ns, next, oauths[1..], c);
    }
  }

  lemma {:induction false} RefsStable(ns: string, refs: seq<string>, oauths: seq<ClusterOAuth>)
    requires forall c <- oauths :: !c.deleting && c.providers != [] ==> PushedName(ns, c.name) in refs
    ensures H.PushedRefs(ns, refs, oauths) == refs
  {
    if oauths != [] {
      var c := oauths[0];
      assert c.providers == [] ==> refs + Repeated(PushedName(ns, c.name), |c.providers|) == refs;
      RefsStable(ns, refs, oauths[1..]);
    }
  }

  lemma RefsTwice(ns: string, refs: seq<string>, oauths: seq<ClusterOAuth>)
    ensures H.PushedRefs(ns, H.PushedRefs(ns, refs, oauths), oauths) == H.PushedRefs(ns, refs, oauths)
  {
    forall c | c in oauths && !c.deleting && c.providers != []
      ensures PushedName(ns, c.name) in H.PushedRefs(ns, refs, oauths)
    {
      RefsComplete(ns, refs, oauths, c);
    }
    RefsStable(ns, H.PushedRefs(ns, refs, oauths), oauths);
  }

  /** What a completed copy leaves: the old entries, and the current data under every pushed name. */
  lemma {:induction false} CopiedSecrets(ns: string, secrets: map<string, string>, copied: map<string, string>,
                                         names: seq<string>, writes: nat)
    ensures var c := H.CopySecrets(ns, secrets, copied, names, writes);
            c.ok ==>
              && (forall n <- names ::
                    n in secrets && PushedName(ns, n) in c.copied && c.copied[PushedName(ns, n)] == secrets[n])
              && (forall k :: k in c.copied <==> k in copied || exists n <- names :: k == PushedName(ns, n))
              && (forall k :: k in copied && (forall n <- names :: k != PushedName(ns, n)) ==> c.copied[k] == copied[k])
    decreases |names|
  {
    if names != [] && names[0] in secrets && writes > 0 {
      var next := copied[PushedName(ns, names[0]) := secrets[names[0]]];
      CopiedSecrets(ns, secrets, next, names[1..], writes - 1);
      var c := H.CopySecrets(ns, secrets, next, names[1..], writes - 1);
      assert names == [names[0]] + names[1..];
      PushedNameInjective(ns, names);
    }
  }

  lemma PushedNameInjective(ns: string, names: seq<string>)
    ensures forall a, b :: PushedName(ns, a) == PushedName(ns, b) ==> a == b
  {
    forall a, b | PushedName(ns, a) == PushedName(ns, b) ensures a == b {
      assert PushedName(ns, a)[|ns| + 1..] == a && PushedName(ns, b)[|ns| + 1..] == b;
    }
  }

  /** A second push of the same ClusterOAuths and secrets leaves the deployment, its references and
      the copied secrets as the first left them. */
  lemma PushTwice(s: Cluster, w1: nat, w2: nat)
    requires H.PushPass(s, w1).outcome.Done?
    requires H.PushPass(H.PushPass(s, w1).after, w2).outcome.Done?
    ensures H.PushPass(H.PushPass(s, w1).after, w2).after == H.PushPass(s, w1).after
  {
    var t := H.PushPass(s, w1).after;
    var u := H.PushPass(t, w2).after;
    var names, d := SecretSources(s.oauths), s.deployments[0];
    PushedItemsTwice(d.Items(), SingleOAuth(s.ns, s.oauths));
    RefsTwice(s.ns, d.SecretRefs(), s.oauths);
    CopiedSecrets(s.ns, s.secrets, s.copied, names, w1);
    CopiedSecrets(s.ns, s.secrets, t.copied, names, w2);
    assert u.copied == t.copied by {
      forall k | k in t.copied ensures k in u.copied && u.copied[k] == t.copied[k] {
      }
    }
  }

  // ----- items of other kinds -----

  predicate OfOtherKind(item: Raw) {
    item.Decodable? && item.kind != "OAuth"
  }

  /** A push leaves every item of another kind as it was exactly when no item has the name of the OAuth,
      or the first that has it is an OAuth. */
  lemma OtherKindsKept(items: seq<Raw>, data: Raw)
    requires data.Decodable? && data.kind == "OAuth"
    ensures var i := H.FirstNamed(items, H.OAUTH_NAME);
            (forall k :: 0 <= k < |items| && OfOtherKind(items[k]) ==> H.PushedItems(items, data)[k] == items[k]) <==>
            i == -1 || items[i].kind == "OAuth"
  {
    var i := H.FirstNamed(items, H.OAUTH_NAME);
    if i != -1 && items[i].kind != "OAuth" {
      assert OfOtherKind(items[i]) && H.PushedItems(items, data)[i] != items[i];
    }
  }

  /** An item of another kind that is lost. */
  lemma OtherKindLost(proxy: Raw, oauth: Raw, data: Raw)
    requires Named(proxy, H.OAUTH_NAME) && proxy.kind == "Proxy" && Named(oauth, H.OAUTH_NAME)
    ensures H.PushedItems([proxy, oauth], data) == [data, oauth]
  {
    assert H.FirstNamed([proxy, oauth], H.OAUTH_NAME) == 0;
    assert [proxy, oauth][0 := data] == [data, oauth];
  }

  // ----- no duplicate reference -----

  predicate NoDuplicates(refs: seq<string>) {
    forall i, j :: 0 <= i < j < |refs| ==> refs[i] != refs[j]
  }

  /** The references stay free of duplicates exactly when every live ClusterOAuth that is not
      referenced yet has at most one provider. */
  lemma {:induction false} DuplicateRefs(ns: string, refs: seq<string>, oauths: seq<ClusterOAuth>)
    requires NoDuplicates(refs) && DistinctNames(oauths)
    ensures NoDuplicates(H.PushedRefs(ns, refs, oauths)) <==>
            forall c <- oauths :: !c.deleting && PushedName(ns, c.name) !in refs ==> |c.providers| <= 1
    decreases |oauths|
  {
    if oauths != [] {
      var c, rest := oauths[0], oauths[1..];
      var name, next := PushedName(ns, c.name), H.RefsAfter(ns, refs, c);
      assert forall x <- rest :: x.name != c.name;
      PushedNameInjective(ns, []);
      assert forall x <- rest :: PushedName(ns, x.name) in next <==> PushedName(ns, x.name) in refs;
      assert oauths == [c] + rest;
      if !c.deleting && name !in refs && |c.providers| > 1 {
        RefsGrow(ns, next, rest);
        assert next[|refs|] == name && next[|refs| + 1] == name;
      } else {
        DuplicateRefs(ns, next, rest);
      }
    }
  }

  // ----- closed references -----

  /** The placement controller gives a ClusterOAuth and its client secret the same name. */
  predicate BuiltByPlacement(oauths: seq<ClusterOAuth>) {
    forall c <- oauths :: forall p <- c.providers :: p.secretName == c.name
  }

  /** Every secret named in a pushed OAuth is one of the secrets that the push reads. */
  lemma {:induction false} NamedSecrets(ns: string, oauths: seq<ClusterOAuth>, p: Provider)
    requires BuiltByPlacement(oauths) && p in LiveProviders(ns, oauths)
    ensures exists c <- oauths ::
              && !c.deleting && c.providers != [] && c.name in SecretSources(oauths)
              && p.secretName == PushedName(ns, c.name)
  {
    LiveProvidersExact(ns, oauths, p);
    var i, j :| 0 <= i < |oauths| && !oauths[i].deleting && 0 <= j < |oauths[i].providers| &&
        p == Prefixed(ns, oauths[i].providers[j]);
    SourcesComplete(oauths, i);
    assert oauths[i] in oauths && oauths[i].providers[j] in oauths[i].providers;
  }

  lemma {:induction false} SourcesComplete(oauths: seq<ClusterOAuth>, i: nat)
    requires i < |oauths| && !oauths[i].deleting && oauths[i].providers != []
    ensures oauths[i].name in SecretSources(oauths)
  {
    if i == 0 {
      assert Repeated(oauths[0].name, |oauths[0].providers|)[0] == oauths[0].name;
    } else {
      SourcesComplete(oauths[1..], i - 1);
    }
  }

  /** Hosted: the secret is in the namespace of the deployment, with the data of the client secret,
      and is listed in its references. */
  lemma HypershiftReferencesClosed(s: Cluster, writes: nat, p: Provider)
    requires BuiltByPlacement(s.oauths) && H.PushPass(s, writes).outcome.Done?
    requires p in LiveProviders(s.ns, s.oauths)
    ensures var t := H.PushPass(s, writes).after;
            && p.secretName in t.deployments[0].SecretRefs()
            && p.secretName in t.copied
            && exists c <- s.oauths :: c.name in s.secrets && p.secretName == PushedName(s.ns, c.name) &&
                t.copied[p.secretName] == s.secrets[c.name]
  {
    NamedSecrets(s.ns, s.oauths, p);
    var c :| c in s.oauths && !c.deleting && c.providers != [] && c.name in SecretSources(s.oauths) &&
        p.secretName == PushedName(s.ns, c.name);
    RefsComplete(s.ns, s.deployments[0].SecretRefs(), s.oauths, c);
    CopiedSecrets(s.ns, s.secrets, s.copied, SecretSources(s.oauths), writes);
  }

  /** One manifest per name, in order, or none at all when a secret is missing. */
  lemma {:induction false} ManifestsComplete(ns: string, secrets: map<string, string>, done: seq<Manifest>,
                                             names: seq<string>)
    ensures var m := B.SecretManifests(ns, secrets, done, names);
            && (m.Some? <==> forall n <- names :: n in secrets)
            && (m.Some? ==>
                  && |m.value| == |done| + |names| && done <= m.value
                  && forall i :: 0 <= i < |names| ==>
                       m.value[|done| + i] == SecretManifest(PushedName(ns, names[i]), secrets[names[i]]))
    decreases |names|
  {
    if names != [] && names[0] in secrets {
      var first := SecretManifest(PushedName(ns, names[0]), secrets[names[0]]);
      ManifestsComplete(ns, secrets, done + [first], names[1..]);
      var m := B.SecretManifests(ns, secrets, done + [first], names[1..]);
      assert names == [names[0]] + names[1..];
      if m.Some? {
        assert m.value[|done|] == (done + [first])[|done|];
        forall i | 0 < i < |names|
          ensures m.value[|done| + i] == SecretManifest(PushedName(ns, names[i]), secrets[names[i]])
        {
          assert names[i] == names[1..][i - 1];
        }
      }
    } else if names != [] {
      assert names[0] in names;
    }
  }

  /** The work holds the aggregated role, the client secrets that the push reads, with their data and in
      their order, the OAuth with the live providers, and nothing else. */
  lemma PushedWorkExactly(s: Cluster, writes: nat)
    requires B.PushPass(s, writes).outcome.Done?
    ensures OAUTH_WORK in B.PushPass(s, writes).after.works
    ensures var m, names := B.PushPass(s, writes).after.works[OAUTH_WORK].manifests, SecretSources(s.oauths);
            && |m| == |names| + 2 && m[0] == AggregatedRole
            && (forall i :: 0 <= i < |names| ==>
                  names[i] in s.secrets && m[i + 1] == SecretManifest(s.ns + "-" + names[i], s.secrets[names[i]]))
            && m[|names| + 1].Document?
            && m[|names| + 1].raw.Decodable? && m[|names| + 1].raw.kind == "OAuth" &&
                m[|names| + 1].raw.name == "cluster"
            && m[|names| + 1].raw.content == Providers(LiveProviders(s.ns, s.oauths))
  {
    ManifestsComplete(s.ns, s.secrets, [AggregatedRole], SecretSources(s.oauths));
    var names := SecretSources(s.oauths);
    assert forall i :: 0 <= i < |names| ==> names[i] in names;
  }

  /** The push reads one secret per pushed provider, in the same order: the one that the provider names. */
  lemma {:induction false} SecretPerProvider(ns: string, oauths: seq<ClusterOAuth>)
    ensures |SecretSources(oauths)| == |LiveProviders(ns, oauths)|
    ensures BuiltByPlacement(oauths) ==>
              forall i :: 0 <= i < |SecretSources(oauths)| ==>
                LiveProviders(ns, oauths)[i].secretName == ns + "-" + SecretSources(oauths)[i]
  {
    if oauths != [] {
      var c := oauths[0];
      SecretPerProvider(ns, oauths[1..]);
      if !c.deleting && BuiltByPlacement(oauths) {
        assert c in oauths && forall i :: 0 <= i < |c.providers| ==> c.providers[i] in c.providers;
      }
    }
  }

  /** Not hosted: the secret travels in the same ManifestWork as the OAuth. */
  lemma BackplaneReferencesClosed(s: Cluster, writes: nat, p: Provider)
    requires BuiltByPlacement(s.oauths) && B.PushPass(s, writes).outcome.Done?
    requires p in LiveProviders(s.ns, s.oauths)
    ensures var work := B.PushPass(s, writes).after.works[OAUTH_WORK];
            && Document(SingleOAuth(s.ns, s.oauths)) in work.manifests
            && exists c <- s.oauths :: c.name in s.secrets && p.secretName == PushedName(s.ns, c.name)
                                       && SecretManifest(p.secretName, s.secrets[c.name]) in work.manifests
  {
    NamedSecrets(s.ns, s.oauths, p);
    var c :| c in s.oauths && !c.deleting && c.providers != [] && c.name in SecretSources(s.oauths) &&
        p.secretName == PushedName(s.ns, c.name);
    ManifestsComplete(s.ns, s.secrets, [AggregatedRole], SecretSources(s.oauths));
    var m := B.SecretManifests(s.ns, s.secrets, [AggregatedRole], SecretSources(s.oauths));
    var data := Document(SingleOAuth(s.ns, s.oauths));
    assert (m.value + [data])[|m.value|] == data;
    var i :| 0 <= i < |SecretSources(s.oauths)| && SecretSources(s.oauths)[i] == c.name;
    assert m.value[1 + i] in m.value;
  }
}
