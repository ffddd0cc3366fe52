/** The two state machines meet in the ClusterOAuths: what a pass of their controller does to the objects of
    one namespace is nothing, or one of the writes that it makes on the hub. */
module ClusterOnHub {
  import opened Kube
  import Cluster_ = ClusterState
  import C = ClusterOAuthController
  import opened Hub

  /** The hub shows the ClusterOAuths of the cluster, with their finalizers and deletion marks, and no others
      in this namespace. */
  ghost predicate Shows(h: Hub, s: Cluster_.Cluster) {
    && Cluster_.DistinctNames(s.oauths)
    && (forall c <- s.oauths :: ShownOne(h, s.ns, c))
    && (forall k :: k in h.oauths && k.namespace == s.ns ==> exists c <- s.oauths :: c.name == k.name)
  }

  predicate ShownOne(h: Hub, ns: string, c: Cluster_.ClusterOAuth) {
    var k := Key(ns, c.name);
    k in h.oauths && h.oauths[k].finalizer == c.finalizer && h.oauths[k].deleting == c.deleting
  }

  lemma FinalizedShown(h: Hub, s: Cluster_.Cluster, i: nat)
    requires Shows(h, s) && i < |s.oauths| && !s.oauths[i].deleting
    ensures var o, c := FinalizeOAuth(Key(s.ns, s.oauths[i].name)), s.oauths[i].(finalizer := true);
            OAuthMay(h, o) && Shows(OAuthWrites(h, o), s.(oauths := s.oauths[i := c]))
  {
    var o, after := FinalizeOAuth(Key(s.ns, s.oauths[i].name)), s.oauths[i := s.oauths[i].(finalizer := true)];
    assert s.oauths[i] in s.oauths && ShownOne(h, s.ns, s.oauths[i]);
    var t := OAuthWrites(h, o);
    forall c | c in after ensures ShownOne(t, s.ns, c) {
      var j :| 0 <= j < |after| && after[j] == c;
      assert ShownOne(h, s.ns, s.oauths[j]);
    }
    forall k | k in t.oauths && k.namespace == s.ns ensures exists c <- after :: c.name == k.name {
      var c :| c in s.oauths && c.name == k.name;
      var j :| 0 <= j < |s.oauths| && s.oauths[j] == c;
      assert after[j] in after;
    }
  }

  lemma ReleasedShown(h: Hub, s: Cluster_.Cluster, i: nat)
    requires Shows(h, s) && i < |s.oauths| && s.oauths[i].deleting
    ensures var o := ReleaseOAuth(Key(s.ns, s.oauths[i].name));
            OAuthMay(h, o) && Shows(OAuthWrites(h, o), s.(oauths := Cluster_.Drop(s.oauths, i)))
  {
    var o, after := ReleaseOAuth(Key(s.ns, s.oauths[i].name)), Cluster_.Drop(s.oauths, i);
    assert s.oauths[i] in s.oauths && ShownOne(h, s.ns, s.oauths[i]);
    var t := OAuthWrites(h, o);
    forall c | c in after ensures ShownOne(t, s.ns, c) {
      var j :| 0 <= j < |after| && after[j] == c;
      assert s.oauths[if j < i then j else j + 1] == c && ShownOne(h, s.ns, c);
    }
    forall k | k in t.oauths && k.namespace == s.ns ensures exists c <- after :: c.name == k.name {
      var c :| c in s.oauths && c.name == k.name;
      var j :| 0 <= j < |s.oauths| && s.oauths[j] == c;
      assert after[if j < i then j else j - 1] in after;
    }
  }

  lemma ProcessedOAuths(s: Cluster_.Cluster, writes: nat, i: nat)
    requires i < |s.oauths|
    ensures C.ProcessPass(s, writes, i).after.oauths == s.oauths ||
            C.ProcessPass(s, writes, i).after.oauths == s.oauths[i := s.oauths[i].(finalizer := true)]
    ensures C.ProcessPass(s, writes, i).after.ns == s.ns
  {
    var p := Cluster_.Written(s, writes, s.(oauths := s.oauths[i := s.oauths[i].(finalizer := true)]));
    if s.oauths[i].strategy.Some? {
      var t := s.oauths[i].strategy.value;
      var q := C.SavePass(t, p.after, p.writes);
      C.SaveKeepsOAuths(t, p.after, p.writes);
      C.PushKeepsOAuths(t, q.after, q.writes);
      SaveKeepsNamespace(t, p.after, p.writes);
      PushKeepsNamespace(t, q.after, q.writes);
    }
  }

  lemma SaveKeepsNamespace(t: StrategyType, s: Cluster_.Cluster, writes: nat)
    ensures C.SavePass(t, s, writes).after.ns == s.ns
  {
  }

  lemma PushKeepsNamespace(t: StrategyType, s: Cluster_.Cluster, writes: nat)
    ensures C.PushPass(t, s, writes).after.ns == s.ns
  {
  }

  /** A pass for one ClusterOAuth is on the hub nothing, the finalizer of a live one, or the release of one
      in deletion, and the hub shows the cluster again. */
  lemma PassOnHub(h: Hub, s: Cluster_.Cluster, writes: nat, name: string, reported: bool)
    requires Shows(h, s)
    ensures var t, k := C.ReconcilePass(s, writes, name, reported).after, Key(s.ns, name);
            || t.oauths == s.oauths
            || (OAuthMay(h, FinalizeOAuth(k)) && Shows(OAuthWrites(h, FinalizeOAuth(k)), s.(oauths := t.oauths)))
            || (OAuthMay(h, ReleaseOAuth(k)) && Shows(OAuthWrites(h, ReleaseOAuth(k)), s.(oauths := t.oauths)))
  {
    var i := Cluster_.FindOAuth(s.oauths, name);
    if i != -1 {
      if s.oauths[i].deleting {
        C.UnmanageKeepsOAuths(s, writes);
        ReleasedShown(h, s, i);
      } else {
        ProcessedOAuths(s, writes, i);
        FinalizedShown(h, s, i);
      }
    }
  }
}
