/** The namespace of one managed cluster on the hub: the objects that the ClusterOAuth controller
    reads and writes, and the API calls it makes on them. */
module ClusterState {
  import opened Kube

  datatype Provider = Provider(name: string, clientId: string, secretName: string)

  datatype Content = Providers(providers: seq<Provider>) | Foreign(text: string)

  /** The raw text of a configuration item. `Decodable` text unmarshals into a named object;
      `layout` stands for the spelling (spacing, key order) that normalising removes. */
  datatype Raw =
    | Decodable(kind: string, name: string, content: Content, layout: nat)
    | Undecodable(text: string)

  /** Conversion of a text to its canonical JSON. */
  function Normalise(r: Raw): Raw {
    match r
    case Decodable(kind, name, content, _) => Decodable(kind, name, content, 0)
    case Undecodable(_) => r
  }

  /** The same document, however it is spelled; text that cannot be decoded has no other spelling. */
  predicate SameOAuth(a: Raw, b: Raw) {
    match a
    case Decodable(kind, name, content, _) => b.Decodable? && b.kind == kind && b.name == name && b.content == content
    case Undecodable(_) => b == a
  }

  /** The canonical text is the same document, and all spellings of a document have the same one. */
  lemma NormaliseIsCanonical(a: Raw, b: Raw)
    ensures SameOAuth(Normalise(a), a)
    ensures Normalise(a) == Normalise(b) <==> SameOAuth(a, b)
  {
  }

  predicate Named(r: Raw, name: string) {
    r.Decodable? && r.name == name
  }

  /** The ConfigMap `idp-oauth-original`; `json` is absent when there was no OAuth to save. */
  datatype Backup = Backup(json: Option<Raw>)

  /** `strategy` is the type of the referenced Strategy, absent when that object is not found. */
  datatype ClusterOAuth = ClusterOAuth(
    name: string, providers: seq<Provider>, strategy: Option<StrategyType>, finalizer: bool, deleting: bool)

  datatype Configuration = Configuration(items: seq<Raw>, secretRefs: seq<string>)

  datatype Deployment = Deployment(configuration: Option<Configuration>)
  {
    function Items(): seq<Raw> {
      if configuration.Some? then configuration.value.items else []
    }

    function SecretRefs(): seq<string> {
      if configuration.Some? then configuration.value.secretRefs else []
    }
  }

  datatype Manifest = AggregatedRole | SecretManifest(name: string, data: string) | Document(raw: Raw)

  /** A ManifestWork; `applied` are the manifests for which the agent of the cluster last set the
      Applied condition, absent while that condition is not true. The controller only sees whether it
      is. `finalizer` says whether the agent holds the object when it is deleted. */
  datatype Work = Work(manifests: seq<Manifest>, applied: Option<seq<Manifest>>, finalizer: bool, deleting: bool)

  const OAUTH_WORK := "idp-oauth"
  const ORIGINAL_WORK := "idp-oauth-original"

  datatype View = View(result: Option<Raw>)

  /** Everything there is for one cluster. `deployments` are the HypershiftDeployments labelled with
      the cluster, `copied` the secrets of the namespace that they live in. `document` is the OAuth on
      the cluster itself, which the controller only sees through a view. */
  datatype Cluster = Cluster(
    ns: string,
    managed: bool,
    hosted: bool,
    oauths: seq<ClusterOAuth>,
    secrets: map<string, string>,
    backup: Option<Backup>,
    view: Option<View>,
    deployments: seq<Deployment>,
    copied: map<string, string>,
    works: map<string, Work>,
    document: Raw)

  /** The outcome of a pass that may make at most `writes` more successful API writes. */
  datatype Pass = Pass(after: Cluster, writes: nat, outcome: Outcome)

  /** One API write that takes `before` to `after`, refused once the writes are used up. */
  function Written(before: Cluster, writes: nat, after: Cluster): Pass {
    if writes == 0 then Pass(before, 0, Failed) else Pass(after, writes - 1, Done)
  }

  /** The index of the first ClusterOAuth called `name`, or -1. */
  function FindOAuth(oauths: seq<ClusterOAuth>, name: string): (i: int)
    ensures -1 <= i < |oauths|
    ensures i >= 0 ==> oauths[i].name == name
    ensures i == -1 ==> forall k :: 0 <= k < |oauths| ==> oauths[k].name != name
  {
    if oauths == [] then -1
    else if oauths[0].name == name then 0
    else
      var i := FindOAuth(oauths[1..], name);
      if i == -1 then -1 else i + 1
  }

  predicate DistinctNames(oauths: seq<ClusterOAuth>) {
    forall i, j :: 0 <= i < j < |oauths| ==> oauths[i].name != oauths[j].name
  }

  function Drop<T>(s: seq<T>, i: nat): seq<T>
    requires i < |s|
  {
    s[..i] + s[i + 1..]
  }

  /** Deletion of an object: gone at once without a finalizer, otherwise only marked. */
  function DeletedWork(works: map<string, Work>, name: string): map<string, Work> {
    if name !in works then works
    else if works[name].finalizer then works[name := works[name].(deleting := true)]
    else works - {name}
  }

  /** The API server as the ClusterOAuth controller sees it. `writes` bounds the writes that still
      succeed, so a pass over every value of `writes` covers every point where it can be cut short. */
  class ClusterStore {
    const ns: string
    const document: Raw
    var managed: bool
    var hosted: bool
    var oauths: seq<ClusterOAuth>
    var secrets: map<string, string>
    var backup: Option<Backup>
    var view: Option<View>
    var deployments: seq<Deployment>
    var copied: map<string, string>
    var works: map<string, Work>
    var writes: nat

    constructor (s: Cluster, writes: nat)
      ensures State() == s && this.writes == writes
    {
      ns, document := s.ns, s.document;
      managed, hosted := s.managed, s.hosted;
      oauths, secrets := s.oauths, s.secrets;
      backup, view := s.backup, s.view;
      deployments, copied, works := s.deployments, s.copied, s.works;
      this.writes := writes;
    }

    ghost function State(): (s: Cluster)
      reads this
    {
      Cluster(ns, managed, hosted, oauths, secrets, backup, view, deployments, copied, works, document)
    }

    /** What a write that means `after` did: all of it, or nothing. */
    twostate predicate Wrote(after: Cluster, ok: bool)
      reads this
    {
      Pass(State(), writes, if ok then Done else Failed) == Written(old(State()), old(writes), after)
    }

    method Spend() returns (ok: bool)
      modifies this`writes
      ensures ok == (old(writes) > 0)
      ensures writes == if ok then old(writes) - 1 else 0
    {
      ok := writes > 0;
      if ok { writes := writes - 1; }
    }

    method UpdateOAuth(i: nat, c: ClusterOAuth) returns (ok: bool)
      requires i < |oauths|
      modifies this
      ensures Wrote(old(State()).(oauths := if c.deleting && !c.finalizer then Drop(old(oauths), i)
          else old(oauths)[i := c]), ok)
    {
      ok := Spend();
      if ok {
        oauths := if c.deleting && !c.finalizer then oauths[..i] + oauths[i + 1..] else oauths[i := c];
      }
    }

    method CreateBackup(b: Backup) returns (ok: bool)
      requires backup.None?
      modifies this
      ensures Wrote(old(State()).(backup := Some(b)), ok)
    {
      ok := Spend();
      if ok { backup := Some(b); }
    }

    method DeleteBackup() returns (ok: bool)
      modifies this
      ensures Wrote(old(State()).(backup := None), ok)
    {
      ok := Spend();
      if ok { backup := None; }
    }

    /** Applying a view leaves the status of an existing one alone. */
    method ApplyView() returns (ok: bool)
      modifies this
      ensures Wrote(old(State()).(view := if old(view).Some? then old(view) else Some(View(None))), ok)
    {
      ok := Spend();
      if ok && view.None? { view := Some(View(None)); }
    }

    method DeleteView() returns (ok: bool)
      modifies this
      ensures Wrote(old(State()).(view := None), ok)
    {
      ok := Spend();
      if ok { view := None; }
    }

    /** Creation of a copied secret: refused, without being a write, when the name is taken. */
    method CreateCopied(name: string, data: string) returns (exists_: bool, ok: bool)
      modifies this
      ensures exists_ == (name in old(copied))
      ensures exists_ ==> !ok && State() == old(State()) && writes == old(writes)
      ensures !exists_ ==> Wrote(old(State()).(copied := old(copied)[name := data]), ok)
    {
      exists_ := name in copied;
      ok := false;
      if !exists_ {
        ok := Spend();
        if ok { copied := copied[name := data]; }
      }
    }

    method UpdateCopied(name: string, data: string) returns (ok: bool)
      requires name in copied
      modifies this
      ensures Wrote(old(State()).(copied := old(copied)[name := data]), ok)
    {
      ok := Spend();
      if ok { copied := copied[name := data]; }
    }

    method UpdateDeployment(d: Deployment) returns (ok: bool)
      requires |deployments| == 1
      modifies this
      ensures Wrote(old(State()).(deployments := [d]), ok)
    {
      ok := Spend();
      if ok { deployments := [d]; }
    }

    method PutWork(name: string, work: Work) returns (ok: bool)
      modifies this
      ensures Wrote(old(State()).(works := old(works)[name := work]), ok)
    {
      ok := Spend();
      if ok { works := works[name := work]; }
    }

    method DeleteWork(name: string) returns (ok: bool)
      modifies this
      ensures Wrote(old(State()).(works := DeletedWork(old(works), name)), ok)
    {
      ok := Spend();
      if ok {
        if name in works {
          if works[name].finalizer {
            works := works[name := works[name].(deleting := true)];
          } else {
            works := works - {name};
          }
        }
      }
    }
  }
}
