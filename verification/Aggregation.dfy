/** Building the single OAuth of a cluster from its ClusterOAuths: the value that is pushed, and
    the loops that compute it by writing through the `OpenID` pointers of the decoded list. */
module Aggregation {
  import opened ClusterState

  /** How a secret is called on the cluster: prefixed by the namespace it comes from. */
  function PushedName(ns: string, name: string): string {
    ns + "-" + name
  }

  function Prefixed(ns: string, p: Provider): Provider {
    p.(secretName := PushedName(ns, p.secretName))
  }

  function PrefixedAll(ns: string, ps: seq<Provider>): seq<Provider> {
    seq(|ps|, i requires 0 <= i < |ps| => Prefixed(ns, ps[i]))
  }

  /** The providers of the live ClusterOAuths, in list order, under their pushed names. */
  function LiveProviders(ns: string, oauths: seq<ClusterOAuth>): seq<Provider> {
    if oauths == [] then []
    else (if oauths[0].deleting then [] else PrefixedAll(ns, oauths[0].providers)) + LiveProviders(ns, oauths[1..])
  }

  function SingleOAuth(ns: string, oauths: seq<ClusterOAuth>): Raw {
    Decodable("OAuth", "cluster", Providers(LiveProviders(ns, oauths)), 0)
  }

  /** One name per provider of a live ClusterOAuth: the secrets that a push reads, in order. */
  function SecretSources(oauths: seq<ClusterOAuth>): seq<string> {
    if oauths == [] then []
    else
      var first := if oauths[0].deleting then [] else Repeated(oauths[0].name, |oauths[0].providers|);
      first + SecretSources(oauths[1..])
  }

  function Repeated(name: string, n: nat): seq<string> {
    seq(n, _ => name)
  }

  /** Nothing is lost, added or reordered by the aggregation: a pushed provider comes from a live
      ClusterOAuth, and every provider of a live one is pushed. */
  lemma {:induction false} LiveProvidersExact(ns: string, oauths: seq<ClusterOAuth>, p: Provider)
    ensures p in LiveProviders(ns, oauths) <==>
            exists i, j :: 0 <= i < |oauths| && !oauths[i].deleting && 0 <= j < |oauths[i].providers| &&
                           p == Prefixed(ns, oauths[i].providers[j])
  {
    if oauths != [] {
      var c, rest := oauths[0], oauths[1..];
      LiveProvidersExact(ns, rest, p);
      if p in LiveProviders(ns, oauths) && p in LiveProviders(ns, rest) {
        var i, j :| 0 <= i < |rest| && !rest[i].deleting && 0 <= j < |rest[i].providers| &&
            p == Prefixed(ns, rest[i].providers[j]);
        assert oauths[i + 1] == rest[i];
      } else if p in LiveProviders(ns, oauths) {
        var j :| 0 <= j < |PrefixedAll(ns, c.providers)| && PrefixedAll(ns, c.providers)[j] == p;
        assert !oauths[0].deleting && p == Prefixed(ns, oauths[0].providers[j]);
      }
      forall i, j | 0 <= i < |oauths| && !oauths[i].deleting && 0 <= j < |oauths[i].providers| &&
          p == Prefixed(ns, oauths[i].providers[j])
        ensures p in LiveProviders(ns, oauths)
      {
        if i == 0 {
          assert PrefixedAll(ns, c.providers)[j] == p;
        } else {
          assert rest[i - 1] == oauths[i];
        }
      }
    }
  }

  lemma Regrouped<T>(a: seq<T>, b: seq<T>, c: seq<T>)
    ensures a + (b + c) == (a + b) + c
  {
  }

  /** The order is that of the list: what is pushed for two parts is pushed one after the other. */
  lemma {:induction false} LiveProvidersInOrder(ns: string, some: seq<ClusterOAuth>, more: seq<ClusterOAuth>)
    ensures LiveProviders(ns, some + more) == LiveProviders(ns, some) + LiveProviders(ns, more)
  {
    if some == [] {
      assert some + more == more;
    } else {
      LiveProvidersInOrder(ns, some[1..], more);
      assert (some + more)[0] == some[0] && (some + more)[1..] == some[1..] + more;
      var first := if some[0].deleting then [] else PrefixedAll(ns, some[0].providers);
      Regrouped(first, LiveProviders(ns, some[1..]), LiveProviders(ns, more));
    }
  }

  /** For one ClusterOAuth it is nothing, or its providers as they are, but for the prefix. */
  lemma LiveProvidersOfOne(ns: string, c: ClusterOAuth)
    ensures c.deleting ==> LiveProviders(ns, [c]) == []
    ensures !c.deleting ==>
              && |LiveProviders(ns, [c])| == |c.providers|
              && forall i :: 0 <= i < |c.providers| ==>
                   LiveProviders(ns, [c])[i] == c.providers[i].(secretName := ns + "-" + c.providers[i].secretName)
  {
    assert [c][1..] == [];
    assert LiveProviders(ns, [c]) == (if c.deleting then [] else PrefixedAll(ns, c.providers)) + [];
  }

  // ----- the decoded list: provider entries share their OpenID part by pointer -----

  class OpenID {
    var secretName: string

    constructor (secretName: string)
      ensures this.secretName == secretName
    {
      this.secretName := secretName;
    }
  }

  datatype Entry = Entry(name: string, clientId: string, openID: OpenID)

  datatype DecodedOAuth = DecodedOAuth(name: string, deleting: bool, entries: seq<Entry>)

  /** Decoding gives every entry a pointer of its own. */
  ghost predicate Unshared(items: seq<DecodedOAuth>) {
    forall i, j, k, l ::
      0 <= i < |items| && 0 <= j < |items[i].entries| && 0 <= k < |items| && 0 <= l < |items[k].entries| ==>
        (items[i].entries[j].openID == items[k].entries[l].openID ==> i == k && j == l)
  }

  ghost function Pointers(items: seq<DecodedOAuth>): set<OpenID> {
    set i, j | 0 <= i < |items| && 0 <= j < |items[i].entries| :: items[i].entries[j].openID
  }

  ghost function EntryValue(e: Entry): Provider
    reads e.openID
  {
    Provider(e.name, e.clientId, e.openID.secretName)
  }

  ghost function EntryValues(es: seq<Entry>): seq<Provider>
    reads set i | 0 <= i < |es| :: es[i].openID
  {
    if es == [] then [] else [EntryValue(es[0])] + EntryValues(es[1..])
  }

  /** The decoded list says the same as the stored one. */
  ghost predicate Represents(items: seq<DecodedOAuth>, oauths: seq<ClusterOAuth>)
    reads Pointers(items)
  {
    && |items| == |oauths|
    && forall i :: 0 <= i < |items| ==>
         && items[i].name == oauths[i].name
         && items[i].deleting == oauths[i].deleting
         && |items[i].entries| == |oauths[i].providers|
         && forall j :: 0 <= j < |items[i].entries| ==> EntryValue(items[i].entries[j]) == oauths[i].providers[j]
  }

  /** The entries of the live ClusterOAuths, in list order. */
  ghost function LiveEntries(items: seq<DecodedOAuth>): seq<Entry> {
    if items == [] then []
    else (if items[0].deleting then [] else items[0].entries) + LiveEntries(items[1..])
  }

  lemma {:induction false} LiveEntriesAppend(xs: seq<DecodedOAuth>, c: DecodedOAuth)
    ensures LiveEntries(xs + [c]) == LiveEntries(xs) + if c.deleting then [] else c.entries
  {
    if xs == [] {
      assert xs + [c] == [c];
      assert LiveEntries([c][1..]) == [];
    } else {
      assert (xs + [c])[1..] == xs[1..] + [c];
      LiveEntriesAppend(xs[1..], c);
    }
  }

  lemma {:induction false} EntryValuesConcat(xs: seq<Entry>, ys: seq<Entry>)
    ensures EntryValues(xs + ys) == EntryValues(xs) + EntryValues(ys)
  {
    if xs == [] {
      assert xs + ys == ys;
    } else {
      assert (xs + ys)[1..] == xs[1..] + ys;
      EntryValuesConcat(xs[1..], ys);
    }
  }

  lemma {:induction false} EntryValuesAre(es: seq<Entry>, ps: seq<Provider>)
    requires |es| == |ps| && forall j :: 0 <= j < |es| ==> EntryValue(es[j]) == ps[j]
    ensures EntryValues(es) == ps
  {
    if es != [] {
      EntryValuesAre(es[1..], ps[1..]);
    }
  }

  /** The list after the renaming of the first `i` items and of the first `j` entries of the next. */
  ghost predicate Renamed(items: seq<DecodedOAuth>, oauths: seq<ClusterOAuth>, ns: string, i: nat, j: nat)
    reads Pointers(items)
  {
    && |items| == |oauths|
    && (forall k :: 0 <= k < |items| ==>
        items[k].deleting == oauths[k].deleting && |items[k].entries| == |oauths[k].providers|)
    && forall k, l :: 0 <= k < |items| && 0 <= l < |items[k].entries| ==>
         EntryValue(items[k].entries[l]) ==
         if !items[k].deleting && (k < i || (k == i && l < j)) then Prefixed(ns, oauths[k].providers[l])
         else oauths[k].providers[l]
  }

  lemma {:induction false} LiveEntriesAre(items: seq<DecodedOAuth>, oauths: seq<ClusterOAuth>, ns: string)
    requires Renamed(items, oauths, ns, |items|, 0)
    ensures EntryValues(LiveEntries(items)) == LiveProviders(ns, oauths)
  {
    if items != [] {
      var es := items[0].entries;
      assert Renamed(items[1..], oauths[1..], ns, |items| - 1, 0);
      LiveEntriesAre(items[1..], oauths[1..], ns);
      if items[0].deleting {
        assert LiveEntries(items) == LiveEntries(items[1..]);
      } else {
        assert forall l :: 0 <= l < |es| ==> EntryValue(items[0].entries[l]) == Prefixed(ns, oauths[0].providers[l]);
        EntryValuesAre(es, PrefixedAll(ns, oauths[0].providers));
        EntryValuesConcat(es, LiveEntries(items[1..]));
      }
    }
  }

  /** aggregateClusterOAuths: the result holds the entries of the list themselves. Every pointer of
      a live ClusterOAuth is renamed once, every pointer of a deleting one is left alone. */
  method AggregateClusterOAuths(items: seq<DecodedOAuth>, ns: string, ghost oauths: seq<ClusterOAuth>)
    returns (single: seq<Entry>)
    requires Unshared(items) && Represents(items, oauths)
    modifies Pointers(items)
    ensures single == LiveEntries(items)
    ensures EntryValues(single) == LiveProviders(ns, oauths)
    ensures Renamed(items, oauths, ns, |items|, 0)
  {
    single := [];
    for i := 0 to |items|
      invariant single == LiveEntries(items[..i])
      invariant Renamed(items, oauths, ns, i, 0)
    {
      assert items[..i + 1] == items[..i] + [items[i]];
      LiveEntriesAppend(items[..i], items[i]);
      if !items[i].deleting {
        single := AggregateOne(items, ns, oauths, i, single);
      }
    }
    assert items[..|items|] == items;
    LiveEntriesAre(items, oauths, ns);
  }

  /** The inner loop, over the providers of a live ClusterOAuth. */
  method AggregateOne(items: seq<DecodedOAuth>, ns: string, ghost oauths: seq<ClusterOAuth>, i: nat, single: seq<Entry>)
    returns (longer: seq<Entry>)
    requires Unshared(items) && Renamed(items, oauths, ns, i, 0)
    requires i < |items| && !items[i].deleting
    modifies Pointers(items)
    ensures longer == single + items[i].entries
    ensures Renamed(items, oauths, ns, i + 1, 0)
  {
    var es := items[i].entries;
    longer := single;
    for j := 0 to |es|
      invariant longer == single + es[..j]
      invariant Renamed(items, oauths, ns, i, j)
    {
      RenameNext(items, oauths, ns, i, j);
      longer := longer + [es[j]];
    }
    assert es[..|es|] == es;
  }

  /** The assignment in the inner loop, through the pointer of one entry. */
  method RenameNext(items: seq<DecodedOAuth>, ghost oauths: seq<ClusterOAuth>, ns: string, i: nat, j: nat)
    requires Unshared(items) && Renamed(items, oauths, ns, i, j)
    requires i < |items| && !items[i].deleting && j < |items[i].entries|
    modifies items[i].entries[j].openID
    ensures Renamed(items, oauths, ns, i, j + 1)
  {
    var openID := items[i].entries[j].openID;
    assert EntryValue(items[i].entries[j]) == oauths[i].providers[j];
    openID.secretName := ns + "-" + openID.secretName;
    forall k, l | 0 <= k < |items| && 0 <= l < |items[k].entries|
      ensures EntryValue(items[k].entries[l]) ==
              if !items[k].deleting && (k < i || (k == i && l < j + 1)) then Prefixed(ns, oauths[k].providers[l])
              else oauths[k].providers[l]
    {
      assert old(EntryValue(items[k].entries[l])) ==
             if !items[k].deleting && (k < i || (k == i && l < j)) then Prefixed(ns, oauths[k].providers[l])
             else oauths[k].providers[l];
    }
  }

  // ----- from the stored list to the pushed document -----

  method DecodeEntries(ps: seq<Provider>) returns (es: seq<Entry>)
    ensures |es| == |ps|
    ensures forall j :: 0 <= j < |es| ==> fresh(es[j].openID) && EntryValue(es[j]) == ps[j]
    ensures forall j, l :: 0 <= j < l < |es| ==> es[j].openID != es[l].openID
  {
    es := [];
    for i := 0 to |ps|
      invariant |es| == i
      invariant forall j :: 0 <= j < |es| ==> fresh(es[j].openID) && EntryValue(es[j]) == ps[j]
      invariant forall j, l :: 0 <= j < l < |es| ==> es[j].openID != es[l].openID
    {
      var openID := new OpenID(ps[i].secretName);
      es := es + [Entry(ps[i].name, ps[i].clientId, openID)];
    }
  }

  ghost predicate RepresentsOne(item: DecodedOAuth, c: ClusterOAuth)
    reads set j | 0 <= j < |item.entries| :: item.entries[j].openID
  {
    && item.name == c.name
    && item.deleting == c.deleting
    && |item.entries| == |c.providers|
    && forall j :: 0 <= j < |item.entries| ==> EntryValue(item.entries[j]) == c.providers[j]
  }

  lemma AppendDecoded(items: seq<DecodedOAuth>, oauths: seq<ClusterOAuth>, item: DecodedOAuth, c: ClusterOAuth)
    requires Unshared(items) && Represents(items, oauths) && RepresentsOne(item, c)
    requires forall j :: 0 <= j < |item.entries| ==> item.entries[j].openID !in Pointers(items)
    requires forall j, l :: 0 <= j < l < |item.entries| ==> item.entries[j].openID != item.entries[l].openID
    ensures Unshared(items + [item]) && Represents(items + [item], oauths + [c])
    ensures Pointers(items + [item]) == Pointers(items) + set j | 0 <= j < |item.entries| :: item.entries[j].openID
  {
    var all := items + [item];
    forall k, l | 0 <= k < |all| && 0 <= l < |all[k].entries|
      ensures all[k].entries[l].openID in if k < |items| then Pointers(items)
          else set j | 0 <= j < |item.entries| :: item.entries[j].openID
    {
      if k < |items| {
        assert items[k].entries[l].openID in Pointers(items);
      }
    }
    assert Pointers(items) <= Pointers(all) by {
      forall p | p in Pointers(items) ensures p in Pointers(all) {
        var k, l :| 0 <= k < |items| && 0 <= l < |items[k].entries| && items[k].entries[l].openID == p;
        assert all[k].entries[l].openID == p;
      }
    }
    forall l | 0 <= l < |item.entries| ensures item.entries[l].openID in Pointers(all) {
      assert all[|items|].entries[l].openID == item.entries[l].openID;
    }
    forall i, j, k, l | 0 <= i < |all| && 0 <= j < |all[i].entries| && 0 <= k < |all| && 0 <= l < |all[k].entries|
                        && all[i].entries[j].openID == all[k].entries[l].openID
      ensures i == k && j == l
    {
      if i < |items| && k < |items| {
        assert items[i].entries[j].openID == items[k].entries[l].openID;
      }
    }
  }

  method DecodeOne(c: ClusterOAuth) returns (item: DecodedOAuth)
    ensures RepresentsOne(item, c)
    ensures forall j :: 0 <= j < |item.entries| ==> fresh(item.entries[j].openID)
    ensures forall j, l :: 0 <= j < l < |item.entries| ==> item.entries[j].openID != item.entries[l].openID
  {
    var es := DecodeEntries(c.providers);
    item := DecodedOAuth(c.name, c.deleting, es);
  }

  method DecodeNext(items: seq<DecodedOAuth>, c: ClusterOAuth, ghost done: seq<ClusterOAuth>)
    returns (longer: seq<DecodedOAuth>)
    requires Unshared(items) && Represents(items, done)
    ensures fresh(Pointers(longer) - Pointers(items)) && Unshared(longer) && Represents(longer, done + [c])
  {
    ghost var known := Pointers(items);
    var item := DecodeOne(c);
    assert Represents(items, done);
    assert forall j :: 0 <= j < |item.entries| ==> item.entries[j].openID !in known;
    AppendDecoded(items, done, item, c);
    longer := items + [item];
  }

  /** A List call: every object, and with it every pointer, is decoded afresh. */
  method Decode(oauths: seq<ClusterOAuth>) returns (items: seq<DecodedOAuth>)
    ensures fresh(Pointers(items)) && Unshared(items) && Represents(items, oauths)
  {
    items := [];
    for i := 0 to |oauths|
      invariant fresh(Pointers(items)) && Unshared(items) && Represents(items, oauths[..i])
    {
      assert oauths[..i + 1] == oauths[..i] + [oauths[i]];
      items := DecodeNext(items, oauths[i], oauths[..i]);
    }
    assert oauths[..|oauths|] == oauths;
  }

  lemma {:induction false} EntryValuesAt(es: seq<Entry>)
    ensures |EntryValues(es)| == |es|
    ensures forall i :: 0 <= i < |es| ==> EntryValues(es)[i] == EntryValue(es[i])
  {
    if es != [] {
      EntryValuesAt(es[1..]);
    }
  }

  /** Reads the entries, and nothing changes meanwhile. */
  method MarshalEntries(es: seq<Entry>) returns (ps: seq<Provider>)
    ensures ps == old(EntryValues(es))
  {
    ghost var values := EntryValues(es);
    EntryValuesAt(es);
    ps := [];
    for i := 0 to |es|
      invariant ps == values[..i]
    {
      ps := ps + [Provider(es[i].name, es[i].clientId, es[i].openID.secretName)];
    }
  }

  /** List, aggregate, marshal: the document a push sends. */
  method BuildSingleOAuth(oauths: seq<ClusterOAuth>, ns: string) returns (data: Raw)
    ensures data == SingleOAuth(ns, oauths)
  {
    var items := Decode(oauths);
    var single := AggregateClusterOAuths(items, ns, oauths);
    assert EntryValues(single) == LiveProviders(ns, oauths);
    var providers := MarshalEntries(single);
    data := Decodable("OAuth", "cluster", Providers(providers), 0);
  }
}
