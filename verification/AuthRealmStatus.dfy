/** The status of an AuthRealm: rows of strategies with rows of clusters, searched by first index and
    updated by five controllers. It behaves as a map of maps. */
module AuthRealmStatus {
  import opened Kube
  import opened Tables

  // ----- conditions -----

  datatype Detail = Detail(status: string, reason: string, message: string)

  type Conditions = seq<Row<Detail>>

  /** SetStatusCondition for every new condition, in order. */
  function Merged(conditions: Conditions, more: Conditions): Conditions {
    if more == [] then conditions
    else Upserted(Merged(conditions, more[..|more| - 1]), more[|more| - 1].name, more[|more| - 1].data)
  }

  method MergeStatusConditions(conditions: Conditions, more: Conditions) returns (merged: Conditions)
    ensures merged == Merged(conditions, more)
  {
    merged := [] + conditions;
    for i := 0 to |more|
      invariant merged == Merged(conditions, more[..i])
    {
      var k := FindRow(merged, more[i].name);
      merged := if k == -1 then merged + [more[i]] else merged[k := more[i]];
      assert more[..i + 1][..i] == more[..i];
    }
    assert more[..|more|] == more;
  }

  /** Types stay distinct, and a type has the last new condition, or else the old one. */
  lemma {:induction false} MergedIsOverride(conditions: Conditions, more: Conditions)
    ensures Distinct(conditions) ==> Distinct(Merged(conditions, more))
    ensures Table(Merged(conditions, more)) == Table(conditions) + Last(more)
  {
    if more != [] {
      var front, last := more[..|more| - 1], more[|more| - 1];
      MergedIsOverride(conditions, front);
      UpsertIsMapUpdate(Merged(conditions, front), last.name, last.data);
      if Distinct(conditions) {
        UpsertKeepsDistinct(Merged(conditions, front), last.name, last.data);
      }
    }
  }

  /** The map of a list in which the last row of a name counts. */
  function Last<T>(rows: seq<Row<T>>): map<string, T> {
    if rows == [] then map[] else Last(rows[..|rows| - 1])[rows[|rows| - 1].name := rows[|rows| - 1].data]
  }

  // ----- the rows -----

  datatype OAuthStatus = OAuthStatus(name: string, conditions: Conditions)

  datatype WorkStatus = WorkStatus(name: string, conditions: Conditions, resources: string)

  datatype DeploymentStatus = DeploymentStatus(name: string, conditions: Conditions, phase: string)

  datatype PlacementStatus = PlacementStatus(name: string, selected: int, conditions: Conditions)

  datatype ClusterData = ClusterData(oauth: OAuthStatus, work: WorkStatus, deployment: DeploymentStatus)

  datatype StrategyData = StrategyData(
    conditions: Conditions, placement: PlacementStatus, clusters: seq<Row<ClusterData>>)

  const NO_WORK := WorkStatus("", [], "")
  const NO_DEPLOYMENT := DeploymentStatus("", [], "")
  const NEW_CLUSTER := ClusterData(OAuthStatus("", []), NO_WORK, NO_DEPLOYMENT)
  const NEW_STRATEGY := StrategyData([], PlacementStatus("", 0, []), [])

  /** The reports of the controllers. The ManifestWork of a deployment may be missing. */
  datatype Report =
    | FromStrategy(strategy: string, conditions: Conditions)
    | FromPlacement(strategy: string, placement: PlacementStatus)
    | FromClusterOAuth(strategy: string, cluster: string, oauth: OAuthStatus)
    | ClusterOAuthGone(strategy: string, cluster: string)
    | FromWork(strategy: string, cluster: string, work: WorkStatus)
    | WorkGone(strategy: string, cluster: string)
    | FromDeployment(strategy: string, cluster: string, deployment: DeploymentStatus, workOf: Option<WorkStatus>)
    | DeploymentGone(strategy: string, cluster: string)

  /** What a report does to the data of its cluster. */
  function Told(d: ClusterData, r: Report): ClusterData
    requires ForCluster(r)
  {
    match r
    case FromClusterOAuth(_, _, oauth) =>
      d.(oauth := OAuthStatus(oauth.name, Merged(d.oauth.conditions, oauth.conditions)))
    case FromWork(_, _, work) => d.(work := work)
    case WorkGone(_, _) => d.(work := NO_WORK)
    case FromDeployment(_, _, deployment, work) =>
      if work.None? then d else d.(deployment := deployment, work := work.value)
    case DeploymentGone(_, _) => d.(deployment := NO_DEPLOYMENT, work := NO_WORK)
  }

  predicate ForCluster(r: Report) {
    !r.FromStrategy? && !r.FromPlacement? && !r.ClusterOAuthGone?
  }

  // ----- the map of maps -----

  datatype StrategyMap = StrategyMap(
    conditions: Conditions, placement: PlacementStatus, clusters: map<string, ClusterData>)

  function AbsStrategy(d: StrategyData): StrategyMap {
    StrategyMap(d.conditions, d.placement, Table(d.clusters))
  }

  function AbsAll(m: map<string, StrategyData>): map<string, StrategyMap> {
    map n | n in m :: AbsStrategy(m[n])
  }

  function Abs(rows: seq<Row<StrategyData>>): map<string, StrategyMap> {
    AbsAll(Table(rows))
  }

  function Entry<T>(m: map<string, T>, k: string, new_: T): T {
    if k in m then m[k] else new_
  }

  /** A report refers to what is there: only the strategy and placement controllers add a strategy,
      only the ClusterOAuth controller adds a cluster. */
  predicate Accepted(m: map<string, StrategyMap>, r: Report) {
    match r
    case FromStrategy(_, _) => true
    case FromPlacement(_, _) => true
    case ClusterOAuthGone(_, _) => true
    case FromClusterOAuth(s, _, _) => s in m
    case _ => r.strategy in m && r.cluster in m[r.strategy].clusters && (r.FromDeployment? ==> r.workOf.Some?)
  }

  /** A report as one update or removal at its key. */
  function MapUpdate(m: map<string, StrategyMap>, r: Report): map<string, StrategyMap> {
    if !Accepted(m, r) then m
    else
      match r
      case FromStrategy(s, conditions) => m[s := Entry(m, s, AbsStrategy(NEW_STRATEGY)).(conditions := conditions)]
      case FromPlacement(s, placement) => m[s := Entry(m, s, AbsStrategy(NEW_STRATEGY)).(placement := placement)]
      case ClusterOAuthGone(s, c) => if s in m then m[s := m[s].(clusters := m[s].clusters - {c})] else m
      case _ =>
        var clusters := m[r.strategy].clusters;
        var told := Told(Entry(clusters, r.cluster, NEW_CLUSTER), r);
        m[r.strategy := m[r.strategy].(clusters := clusters[r.cluster := told])]
  }

  // ----- what the controllers do to the rows -----

  function DataOf<T>(rows: seq<Row<T>>, name: string, new_: T): T {
    if IndexOf(rows, name) == -1 then new_ else rows[IndexOf(rows, name)].data
  }

  function WithCluster(d: StrategyData, r: Report): StrategyData
    requires ForCluster(r)
  {
    d.(clusters := Upserted(d.clusters, r.cluster, Told(DataOf(d.clusters, r.cluster, NEW_CLUSTER), r)))
  }

  function Applied(rows: seq<Row<StrategyData>>, r: Report): seq<Row<StrategyData>> {
    var d := DataOf(rows, r.strategy, NEW_STRATEGY);
    match r
    case FromStrategy(s, conditions) => Upserted(rows, s, d.(conditions := conditions))
    case FromPlacement(s, placement) => Upserted(rows, s, d.(placement := placement))
    case ClusterOAuthGone(s, c) =>
      if IndexOf(rows, s) == -1 then rows else Upserted(rows, s, d.(clusters := Removed(d.clusters, c)))
    case _ => if RowsAccept(rows, r) then Upserted(rows, r.strategy, WithCluster(d, r)) else rows
  }

  predicate RowsAccept(rows: seq<Row<StrategyData>>, r: Report) {
    match r
    case FromStrategy(_, _) => true
    case FromPlacement(_, _) => true
    case ClusterOAuthGone(_, _) => true
    case FromClusterOAuth(s, _, _) => IndexOf(rows, s) >= 0
    case _ => IndexOf(rows, r.strategy) >= 0 && IndexOf(rows[IndexOf(rows, r.strategy)].data.clusters, r.cluster) >= 0
              && (r.FromDeployment? ==> r.workOf.Some?)
  }

  method FindRow<T>(rows: seq<Row<T>>, name: string) returns (i: int)
    ensures i == IndexOf(rows, name)
  {
    i := -1;
    for k := 0 to |rows|
      invariant i == -1 && forall j :: 0 <= j < k ==> rows[j].name != name
    {
      if rows[k].name == name {
        i := k;
        break;
      }
    }
  }

  class AuthRealm {
    var strategies: seq<Row<StrategyData>>

    constructor ()
      ensures strategies == []
    {
      strategies := [];
    }

    /** Appends the row of a strategy that has none. */
    method StrategyRow(name: string) returns (i: nat)
      modifies this
      ensures i < |strategies| && strategies[i].name == name
      ensures strategies == if IndexOf(old(strategies), name) == -1 then old(strategies) + [Row(name, NEW_STRATEGY)]
          else old(strategies)
      ensures i == if IndexOf(old(strategies), name) == -1 then |old(strategies)| else IndexOf(old(strategies), name)
    {
      var found := FindRow(strategies, name);
      if found == -1 {
        found := |strategies|;
        strategies := strategies + [Row(name, NEW_STRATEGY)];
      }
      i := found;
    }

    method UpdateStrategyConditions(name: string, conditions: Conditions)
      modifies this
      ensures strategies == Applied(old(strategies), FromStrategy(name, conditions))
    {
      var i := StrategyRow(name);
      strategies := strategies[i := Row(name, strategies[i].data.(conditions := conditions))];
    }

    method UpdatePlacementStatus(name: string, placement: PlacementStatus)
      modifies this
      ensures strategies == Applied(old(strategies), FromPlacement(name, placement))
    {
      var i := StrategyRow(name);
      strategies := strategies[i := Row(name, strategies[i].data.(placement := placement))];
    }

    method SetCluster(i: nat, k: nat, cluster: Row<ClusterData>)
      requires i < |strategies| && k < |strategies[i].data.clusters|
      modifies this
      ensures strategies ==
          old(strategies)[i := Row(old(strategies)[i].name,
              old(strategies)[i].data.(clusters := old(strategies)[i].data.clusters[k := cluster]))]
    {
      var d := strategies[i].data;
      strategies := strategies[i := Row(strategies[i].name, d.(clusters := d.clusters[k := cluster]))];
    }

    method UpdateClusterOAuthConditions(strategy: string, cluster: string, oauth: OAuthStatus) returns (ok: bool)
      modifies this
      ensures ok == RowsAccept(old(strategies), FromClusterOAuth(strategy, cluster, oauth))
      ensures strategies == Applied(old(strategies), FromClusterOAuth(strategy, cluster, oauth))
    {
      var i := FindRow(strategies, strategy);
      if i == -1 {
        return false;
      }
      var d := strategies[i].data;
      var k := FindRow(d.clusters, cluster);
      if k == -1 {
        k := |d.clusters|;
        strategies := strategies[i := Row(strategy, d.(clusters := d.clusters + [Row(cluster, NEW_CLUSTER)]))];
      }
      var c := strategies[i].data.clusters[k].data;
      var merged := MergeStatusConditions(c.oauth.conditions, oauth.conditions);
      SetCluster(i, k, Row(cluster, c.(oauth := OAuthStatus(oauth.name, merged))));
      ok := true;
      ghost var r := FromClusterOAuth(strategy, cluster, oauth);
      assert strategies[i].data.clusters == WithCluster(d, r).clusters;
      assert strategies == Upserted(old(strategies), strategy, WithCluster(d, r));
    }

    method DeleteConditions(strategy: string, cluster: string)
      modifies this
      ensures strategies == Applied(old(strategies), ClusterOAuthGone(strategy, cluster))
    {
      var i := FindRow(strategies, strategy);
      if i != -1 {
        var d := strategies[i].data;
        var k := FindRow(d.clusters, cluster);
        if k != -1 {
          strategies := strategies[i := Row(strategy, d.(clusters := d.clusters[..k] + d.clusters[k + 1..]))];
        }
        assert strategies == Upserted(old(strategies), strategy, d.(clusters := Removed(d.clusters, cluster)));
      }
    }

    /** The ManifestWork controller; `work` is absent when it is being deleted. */
    method UpdateManifestWorkConditions(strategy: string, cluster: string, work: Option<WorkStatus>) returns (ok: bool)
      modifies this
      ensures var r := if work.Some? then FromWork(strategy, cluster, work.value) else WorkGone(strategy, cluster);
              ok == RowsAccept(old(strategies), r) && strategies == Applied(old(strategies), r)
    {
      var i := FindRow(strategies, strategy);
      if i == -1 {
        return false;
      }
      var k := FindRow(strategies[i].data.clusters, cluster);
      if k == -1 {
        return false;
      }
      var c := strategies[i].data.clusters[k].data;
      SetCluster(i, k, Row(cluster, c.(work := if work.Some? then work.value else NO_WORK)));
      ok := true;
    }

    /** The HypershiftDeployment controller; `deployment` is absent when it is being deleted. */
    method UpdateHypershiftDeploymentConditions(strategy: string, cluster: string, deployment: Option<DeploymentStatus>,
                                                work: Option<WorkStatus>)
      returns (ok: bool)
      modifies this
      ensures var r := if deployment.Some? then FromDeployment(strategy, cluster, deployment.value, work)
          else DeploymentGone(strategy, cluster);
              ok == RowsAccept(old(strategies), r) && strategies == Applied(old(strategies), r)
    {
      var i := FindRow(strategies, strategy);
      if i == -1 {
        return false;
      }
      var k := FindRow(strategies[i].data.clusters, cluster);
      if k == -1 {
        return false;
      }
      var clusterStatus := strategies[i].data.clusters[k].data;
      if deployment.None? {
        clusterStatus := clusterStatus.(deployment := NO_DEPLOYMENT);
        clusterStatus := clusterStatus.(work := NO_WORK);
      } else {
        clusterStatus := clusterStatus.(deployment := deployment.value);
        if work.None? {
          return false;
        }
        clusterStatus := clusterStatus.(work := work.value);
      }
      SetCluster(i, k, Row(cluster, clusterStatus));
      ok := true;
    }
  }

  // ----- refinement -----

  /** Strategy names, and the cluster names of each strategy, are distinct. */
  predicate WellFormed(rows: seq<Row<StrategyData>>) {
    Distinct(rows) && forall i :: 0 <= i < |rows| ==> Distinct(rows[i].data.clusters)
  }

  lemma AbsPut(rows: seq<Row<StrategyData>>, name: string, d: StrategyData)
    requires WellFormed(rows) && Distinct(d.clusters)
    ensures WellFormed(Upserted(rows, name, d)) && Abs(Upserted(rows, name, d)) == Abs(rows)[name := AbsStrategy(d)]
  {
    UpsertIsMapUpdate(rows, name, d);
    UpsertKeepsDistinct(rows, name, d);
  }

  lemma AcceptAgrees(rows: seq<Row<StrategyData>>, r: Report)
    ensures RowsAccept(rows, r) <==> Accepted(Abs(rows), r)
    ensures r.strategy in Abs(rows) <==> IndexOf(rows, r.strategy) >= 0
    ensures r.strategy in Abs(rows) ==> Abs(rows)[r.strategy] == AbsStrategy(DataOf(rows, r.strategy, NEW_STRATEGY))
  {
    Lookup(rows, r.strategy);
    if IndexOf(rows, r.strategy) >= 0 && !r.FromStrategy? && !r.FromPlacement? {
      Lookup(rows[IndexOf(rows, r.strategy)].data.clusters, r.cluster);
    }
  }

  lemma ClusterAgrees(d: StrategyData, r: Report)
    requires ForCluster(r) && Distinct(d.clusters)
    ensures Distinct(WithCluster(d, r).clusters)
    ensures var clusters := Table(d.clusters);
            AbsStrategy(WithCluster(d, r)) ==
                AbsStrategy(d).(clusters := clusters[r.cluster := Told(Entry(clusters, r.cluster, NEW_CLUSTER), r)])
  {
    var told := Told(DataOf(d.clusters, r.cluster, NEW_CLUSTER), r);
    Lookup(d.clusters, r.cluster);
    UpsertIsMapUpdate(d.clusters, r.cluster, told);
    UpsertKeepsDistinct(d.clusters, r.cluster, told);
  }

  /** Each report is one update or removal at its key of the map of maps, and keeps names distinct. */
  lemma AppliedIsMapUpdate(rows: seq<Row<StrategyData>>, r: Report)
    requires WellFormed(rows)
    ensures WellFormed(Applied(rows, r)) && Abs(Applied(rows, r)) == MapUpdate(Abs(rows), r)
  {
    AcceptAgrees(rows, r);
    var d := DataOf(rows, r.strategy, NEW_STRATEGY);
    match r
    case FromStrategy(s, conditions) => AbsPut(rows, s, d.(conditions := conditions));
    case FromPlacement(s, placement) => AbsPut(rows, s, d.(placement := placement));
    case ClusterOAuthGone(s, c) =>
      RemoveIsMapRemoval(d.clusters, c);
      RemoveKeepsDistinct(d.clusters, c);
      AbsPut(rows, s, d.(clusters := Removed(d.clusters, c)));
    case _ =>
      ClusterAgrees(d, r);
      AbsPut(rows, r.strategy, WithCluster(d, r));
  }

  // ----- what a report says -----

  /** A cluster of which nothing has been reported. */
  function Blank(): ClusterData {
    ClusterData(OAuthStatus("", []), WorkStatus("", [], ""), DeploymentStatus("", [], ""))
  }

  /** The data of a cluster before a report, blank when there is none. */
  function ClusterBefore(m: map<string, StrategyMap>, strategy: string, cluster: string): ClusterData
    requires strategy in m
  {
    if cluster in m[strategy].clusters then m[strategy].clusters[cluster] else Blank()
  }

  function StrategyBefore(m: map<string, StrategyMap>, strategy: string): StrategyMap {
    if strategy in m then m[strategy] else StrategyMap([], PlacementStatus("", 0, []), map[])
  }

  /** Field by field, what the map shows of a cluster after a report about it: the reported parts as they
      were reported, with conditions merged over the old ones, and the other parts as they were. */
  predicate ShowsCluster(before: ClusterData, after: ClusterData, r: Report)
    requires ForCluster(r)
  {
    match r
    case FromClusterOAuth(_, _, oauth) =>
      && after.oauth.name == oauth.name
      && Table(after.oauth.conditions) == Table(before.oauth.conditions) + Last(oauth.conditions)
      && after.work == before.work && after.deployment == before.deployment
    case FromWork(_, _, work) =>
      after.work == work && after.oauth == before.oauth && after.deployment == before.deployment
    case WorkGone(_, _) =>
      after.work == Blank().work && after.oauth == before.oauth && after.deployment == before.deployment
    case FromDeployment(_, _, deployment, workOf) =>
      && after.deployment == deployment && workOf == Some(after.work) && after.oauth == before.oauth
    case DeploymentGone(_, _) =>
      after.deployment == Blank().deployment && after.work == Blank().work && after.oauth == before.oauth
  }

  /** What the map shows at the key of an accepted report. */
  predicate Shows(before: map<string, StrategyMap>, after: map<string, StrategyMap>, r: Report) {
    match r
    case FromStrategy(s, conditions) =>
      var old_ := StrategyBefore(before, s);
      && s in after && after[s].conditions == conditions
      && after[s].placement == old_.placement && after[s].clusters == old_.clusters
    case FromPlacement(s, placement) =>
      var old_ := StrategyBefore(before, s);
      && s in after && after[s].placement == placement
      && after[s].conditions == old_.conditions && after[s].clusters == old_.clusters
    case ClusterOAuthGone(s, c) =>
      && (s in after <==> s in before)
      && (s in before ==> && c !in after[s].clusters
                          && after[s].conditions == before[s].conditions && after[s].placement == before[s].placement)
    case _ =>
      && r.strategy in before && r.strategy in after && r.cluster in after[r.strategy].clusters
      && (r.cluster in before[r.strategy].clusters || r.FromClusterOAuth?)
      && after[r.strategy].conditions == before[r.strategy].conditions
      && after[r.strategy].placement == before[r.strategy].placement
      && ShowsCluster(ClusterBefore(before, r.strategy, r.cluster), after[r.strategy].clusters[r.cluster], r)
  }

  /** A report about a strategy or a cluster that has no row, or about a deployment without its work. */
  predicate Unknown(m: map<string, StrategyMap>, r: Report) {
    && ForCluster(r)
    && (|| r.strategy !in m || (!r.FromClusterOAuth? && r.cluster !in m[r.strategy].clusters)
        || (r.FromDeployment? && r.workOf.None?))
  }

  /** An accepted report is what the status shows at its key; one that is refused, because there is no place
      for it, leaves it as it was. */
  lemma ReportShows(rows: seq<Row<StrategyData>>, r: Report)
    requires WellFormed(rows)
    ensures if RowsAccept(rows, r) then Shows(Abs(rows), Abs(Applied(rows, r)), r)
            else Unknown(Abs(rows), r) && Applied(rows, r) == rows
  {
    AppliedIsMapUpdate(rows, r);
    AcceptAgrees(rows, r);
    if r.FromClusterOAuth? && r.strategy in Abs(rows) {
      var before := ClusterBefore(Abs(rows), r.strategy, r.cluster);
      MergedIsOverride(before.oauth.conditions, r.oauth.conditions);
    }
  }

  function AppliedAll(rows: seq<Row<StrategyData>>, reports: seq<Report>): seq<Row<StrategyData>>
    decreases |reports|
  {
    if reports == [] then rows else AppliedAll(Applied(rows, reports[0]), reports[1..])
  }

  function MapUpdates(m: map<string, StrategyMap>, reports: seq<Report>): map<string, StrategyMap>
    decreases |reports|
  {
    if reports == [] then m else MapUpdates(MapUpdate(m, reports[0]), reports[1..])
  }

  /** Over any sequence of reports of the five controllers the status refines the map of maps. */
  lemma {:induction false} StatusRefinesMap(rows: seq<Row<StrategyData>>, reports: seq<Report>)
    requires WellFormed(rows)
    ensures WellFormed(AppliedAll(rows, reports)) && Abs(AppliedAll(rows, reports)) == MapUpdates(Abs(rows), reports)
    decreases |reports|
  {
    if reports != [] {
      AppliedIsMapUpdate(rows, reports[0]);
      StatusRefinesMap(Applied(rows, reports[0]), reports[1..]);
    }
  }

  /** A report leaves the other strategies, and the other clusters of its strategy, as they were. */
  lemma OthersUnchanged(rows: seq<Row<StrategyData>>, r: Report, strategy: string, cluster: string)
    requires WellFormed(rows)
    ensures strategy != r.strategy ==>
              (strategy in Abs(Applied(rows, r)) <==> strategy in Abs(rows)) &&
              (strategy in Abs(rows) ==> Abs(Applied(rows, r))[strategy] == Abs(rows)[strategy])
    ensures r.strategy in Abs(rows) && (r.FromStrategy? || r.FromPlacement? || r.cluster != cluster) ==>
              r.strategy in Abs(Applied(rows, r)) &&
              var before, after := Abs(rows)[r.strategy].clusters, Abs(Applied(rows, r))[r.strategy].clusters;
              (cluster in after <==> cluster in before) && (cluster in before ==> after[cluster] == before[cluster])
  {
    AppliedIsMapUpdate(rows, r);
  }
}
