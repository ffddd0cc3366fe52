/** Runs of one cluster namespace: passes of the ClusterOAuth controller, each cut short anywhere,
    interleaved with what the rest of the system does. */
module ClusterEvents {
  import opened Kube
  import opened ClusterState
  import opened ClusterOAuthController

  datatype Event =
    | Reconcile(name: string, writes: nat, reported: bool)
    | PutOAuth(oauth: ClusterOAuth)
    | DeleteOAuth(name: string)
    | SetSecret(name: string, data: Option<string>)
    | AppendItem(item: Raw)
    | UserEdits(text: Raw)
    | FillView
    | AgentApplies(work: string)
    | AgentFails(work: string)
    | FinishWork(work: string)

  // ----- the agent of the cluster -----

  /** What a list of manifests makes of the OAuth of the cluster, if it says anything about it. */
  function LastDocument(manifests: seq<Manifest>): Option<Raw> {
    if manifests == [] then None
    else
      var last := manifests[|manifests| - 1];
      if last.Document? then Some(last.raw) else LastDocument(manifests[..|manifests| - 1])
  }

  predicate Applicable(manifests: seq<Manifest>) {
    forall m <- manifests :: m.Document? ==> m.raw.Decodable?
  }

  /** The agent works on what is not being deleted. */
  predicate Applies(s: Cluster, w: string) {
    w in s.works && !s.works[w].deleting && Applicable(s.works[w].manifests)
  }

  function AfterApplying(s: Cluster, w: string): Cluster
    requires w in s.works
  {
    var manifests := s.works[w].manifests;
    var document := LastDocument(manifests);
    s.(works := s.works[w := s.works[w].(applied := Some(manifests))],
       document := if document.Some? then document.value else s.document)
  }

  function AfterFailing(s: Cluster, w: string): Cluster
    requires w in s.works
  {
    s.(works := s.works[w := s.works[w].(applied := None)])
  }

  /** Both works are deleted with the option that leaves on the cluster what they brought there. */
  function AfterFinishing(s: Cluster, w: string): Cluster {
    s.(works := s.works - {w})
  }

  // ----- everybody else -----

  /** Users change the OAuth of a cluster while nobody manages it. */
  predicate Edits(s: Cluster, e: Event) {
    e.UserEdits? && s.oauths == [] && Named(e.text, H.OAUTH_NAME)
  }

  function Edited(s: Cluster, text: Raw): Cluster {
    if !s.hosted then s.(document := text)
    else if |s.deployments| == 1 then
      var d := s.deployments[0];
      s.(deployments := [Deployment(Some(Configuration(H.PushedItems(d.Items(), text), d.SecretRefs())))])
    else s
  }

  /** Others add configuration items, but none that is called "cluster". */
  predicate OfOthers(item: Raw) {
    !Named(item, H.OAUTH_NAME)
  }

  /** The placement controller overwrites the spec of an existing object, or creates a new one. */
  function PutInto(oauths: seq<ClusterOAuth>, c: ClusterOAuth): seq<ClusterOAuth> {
    var i := FindOAuth(oauths, c.name);
    if i == -1 then oauths + [c.(finalizer := false, deleting := false)]
    else oauths[i := oauths[i].(providers := c.providers, strategy := c.strategy)]
  }

  function DeletedFrom(oauths: seq<ClusterOAuth>, name: string): seq<ClusterOAuth> {
    var i := FindOAuth(oauths, name);
    if i == -1 then oauths
    else if oauths[i].finalizer then oauths[i := oauths[i].(deleting := true)]
    else Drop(oauths, i)
  }

  function Step(s: Cluster, e: Event): Cluster {
    match e
    case Reconcile(name, writes, reported) => ReconcilePass(s, writes, name, reported).after
    case PutOAuth(c) => s.(oauths := PutInto(s.oauths, c))
    case DeleteOAuth(name) => s.(oauths := DeletedFrom(s.oauths, name))
    case SetSecret(name, data) => s.(secrets := if data.Some? then s.secrets[name := data.value]
        else s.secrets - {name})
    case AppendItem(item) =>
      if |s.deployments| == 1 && OfOthers(item) then
        var d := s.deployments[0];
        s.(deployments := [Deployment(Some(Configuration(d.Items() + [item], d.SecretRefs())))])
      else s
    case UserEdits(text) => if Edits(s, e) then Edited(s, text) else s
    case FillView => if s.view.Some? then s.(view := Some(View(Some(s.document)))) else s
    case AgentApplies(w) => if Applies(s, w) then AfterApplying(s, w) else s
    case AgentFails(w) => if w in s.works && !s.works[w].deleting then AfterFailing(s, w) else s
    case FinishWork(w) => if w in s.works && s.works[w].deleting then AfterFinishing(s, w) else s
  }

  function Run(s: Cluster, es: seq<Event>): Cluster {
    if es == [] then s else Step(Run(s, es[..|es| - 1]), es[|es| - 1])
  }

  /** The items that others append during a run. */
  function Appended(es: seq<Event>): seq<Raw> {
    if es == [] then []
    else Appended(es[..|es| - 1]) + AppendedBy(es[|es| - 1])
  }

  function AppendedBy(e: Event): seq<Raw> {
    if e.AppendItem? && OfOthers(e.item) then [e.item] else []
  }

  /** Nobody but the operator changes the OAuth during the run. */
  predicate Undisturbed(s: Cluster, es: seq<Event>) {
    es == [] || (Undisturbed(s, es[..|es| - 1]) && !Edits(Run(s, es[..|es| - 1]), es[|es| - 1]))
  }

  lemma RunPrefix(s: Cluster, es: seq<Event>, k: nat)
    requires k < |es|
    ensures Run(s, es[..k + 1]) == Step(Run(s, es[..k]), es[k])
  {
    assert es[..k + 1][..k] == es[..k];
  }

  lemma RunOne(s: Cluster, e: Event)
    ensures Run(s, [e]) == Step(s, e)
  {
    assert [e][..0] == [];
  }

  /** A run is the run of its parts, one after the other. */
  lemma {:induction false} RunAppend(s: Cluster, es: seq<Event>, more: seq<Event>)
    ensures Run(s, es + more) == Run(Run(s, es), more)
  {
    if more == [] {
      assert es + more == es;
    } else {
      var n := |more| - 1;
      RunAppend(s, es, more[..n]);
      assert (es + more)[..|es + more| - 1] == es + more[..n];
    }
  }

  /** A run that passes through the given states. */
  lemma {:induction false} RunAlong(s: Cluster, es: seq<Event>, states: seq<Cluster>)
    requires |states| == |es| + 1 && states[0] == s
    requires forall k :: 0 <= k < |es| ==> Step(states[k], es[k]) == states[k + 1]
    ensures Run(s, es) == states[|es|]
  {
    if es != [] {
      var n := |es| - 1;
      forall k | 0 <= k < n ensures Step(states[..n + 1][k], es[..n][k]) == states[..n + 1][k + 1] {
        assert Step(states[k], es[k]) == states[k + 1];
      }
      RunAlong(s, es[..n], states[..n + 1]);
    }
  }
}
