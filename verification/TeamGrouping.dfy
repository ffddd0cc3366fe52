/** The GitHub organisations of a Dex connector, grouped from a list of `org/team` entries. */
module TeamGrouping {
  datatype Org = Org(name: string, teams: seq<string>)

  datatype Entry = Entry(org: string, team: string)

  /** A text split at every slash. */
  function Split(s: string): (parts: seq<string>)
    ensures |parts| >= 1 && Joined(parts) == s
    ensures forall p <- parts :: '/' !in p
  {
    if s == "" then [""]
    else
      var rest := Split(s[1..]);
      if s[0] == '/' then [""] + rest else [[s[0]] + rest[0]] + rest[1..]
  }

  function Joined(parts: seq<string>): string {
    if parts == [] then "" else if |parts| == 1 then parts[0] else parts[0] + "/" + Joined(parts[1..])
  }

  /** The well-formed entries of a list, in order. */
  function Entries(teams: seq<string>): (es: seq<Entry>)
    ensures |es| <= |teams|
  {
    if teams == [] then []
    else
      var s := Split(teams[|teams| - 1]);
      Entries(teams[..|teams| - 1]) + if |s| == 2 then [Entry(s[0], s[1])] else []
  }

  function Orgs(es: seq<Entry>): set<string> {
    set e <- es :: e.org
  }

  function TeamsOf(es: seq<Entry>, org: string): seq<string> {
    if es == [] then []
    else TeamsOf(es[..|es| - 1], org) + if es[|es| - 1].org == org then [es[|es| - 1].team] else []
  }

  /** Whether the loop finds the organisation of the entry at index `i`: one that was seen before, or the
      empty name of a slot that nobody has used yet. */
  predicate Finds(es: seq<Entry>, i: nat, org: string) {
    org in Orgs(es) || (org == "" && |es| < i)
  }

  predicate DistinctOrgs(es: seq<Entry>, j: nat) {
    j <= |es| && forall a, b :: 0 <= a < b < j ==> es[a].org != es[b].org
  }

  /** How many entries come before the first whose organisation is found. */
  function Opened(teams: seq<string>): (n: nat)
    ensures DistinctOrgs(Entries(teams), n)
  {
    if teams == [] then 0
    else
      var front, s := teams[..|teams| - 1], Split(teams[|teams| - 1]);
      var n, es := Opened(front), Entries(front);
      assert Entries(teams)[..|es|] == es;
      if |s| != 2 || n < |es| || Finds(es, |front|, s[0]) then n else n + 1
  }

  /** The first entry without a slot of its own has an organisation that was seen before, or none. */
  lemma {:induction false} FirstFound(teams: seq<string>)
    ensures var es, n := Entries(teams), Opened(teams);
            n < |es| ==> es[n].org == "" || es[n].org in Orgs(es[..n])
  {
    if teams != [] {
      var front := teams[..|teams| - 1];
      FirstFound(front);
      assert Entries(teams)[..|Entries(front)|] == Entries(front);
      assert Entries(teams)[..Opened(front)] == Entries(front)[..Opened(front)];
    }
  }

  /** What the loop leaves in a slot when it has opened `j` of them: the teams of one organisation each,
      in the next one those without an organisation, and nothing in the rest. */
  function SlotAfter(es: seq<Entry>, j: nat, k: nat): Org
    requires j <= |es|
  {
    if k < j then Org(es[k].org, TeamsOf(es, es[k].org))
    else if k == j && "" !in Orgs(es[..j]) then Org("", TeamsOf(es, ""))
    else Org("", [])
  }

  function Grouped(teams: seq<string>): (slots: seq<Org>) {
    var es, j := Entries(teams), Opened(teams);
    seq(|teams|, k requires 0 <= k < |teams| => SlotAfter(es, j, k))
  }

  ghost predicate Slots(slots: seq<Org>, es: seq<Entry>, j: nat) {
    j <= |es| && j <= |slots| && forall k :: 0 <= k < |slots| ==> slots[k] == SlotAfter(es, j, k)
  }

  /** The search among the slots before `i`; the result is `i` when there is none. */
  method FindOrg(orgs: array<Org>, i: nat, name: string) returns (k: nat)
    requires i <= orgs.Length
    ensures k <= i && (k < i ==> orgs[k].name == name)
    ensures forall a :: 0 <= a < k ==> orgs[a].name != name
  {
    k := 0;
    while k < i && orgs[k].name != name
      invariant k <= i
      invariant forall a :: 0 <= a < k ==> orgs[a].name != name
    {
      k := k + 1;
    }
  }

  lemma Grows(es: seq<Entry>, e: Entry, org: string)
    ensures TeamsOf(es + [e], org) == TeamsOf(es, org) + if e.org == org then [e.team] else []
  {
    assert (es + [e])[..|es|] == es;
  }

  lemma {:induction false} NoTeams(es: seq<Entry>, org: string)
    ensures org !in Orgs(es) ==> TeamsOf(es, org) == []
  {
    if es != [] {
      NoTeams(es[..|es| - 1], org);
      assert es[|es| - 1] in es;
      assert forall e :: e in es[..|es| - 1] ==> e in es;
    }
  }

  /** Without an opened slot called "", the next slot is the first with that name. */
  lemma EmptyName(slots: seq<Org>, es: seq<Entry>, j: nat, k: nat)
    requires Slots(slots, es, j) && j <= k < |slots|
    requires forall a :: 0 <= a < k ==> slots[a].name != ""
    ensures k == j && "" !in Orgs(es[..j])
  {
    assert slots[j].name == "";
    forall e | e in es[..j] ensures exists a :: 0 <= a < j && slots[a].name == e.org {
      var a :| 0 <= a < j && es[a] == e;
      assert slots[a].name == e.org;
    }
  }

  /** The entry joins the first slot of its name. */
  lemma JoinedSlot(slots: seq<Org>, es: seq<Entry>, e: Entry, j: nat, k: nat)
    requires Slots(slots, es, j) && DistinctOrgs(es, j) && k < |slots| && slots[k].name == e.org
    requires forall a :: 0 <= a < k ==> slots[a].name != e.org
    ensures Slots(slots[k := slots[k].(teams := slots[k].teams + [e.team])], es + [e], j)
  {
    var after := slots[k := slots[k].(teams := slots[k].teams + [e.team])];
    if j <= k {
      EmptyName(slots, es, j, k);
    }
    forall i | 0 <= i < |after| ensures after[i] == SlotAfter(es + [e], j, i) {
      JoinedAt(slots, es, e, j, k, i);
    }
  }

  lemma JoinedAt(slots: seq<Org>, es: seq<Entry>, e: Entry, j: nat, k: nat, i: nat)
    requires Slots(slots, es, j) && DistinctOrgs(es, j) && k < |slots| && slots[k].name == e.org && i < |slots|
    requires j <= k ==> k == j && "" !in Orgs(es[..j])
    ensures slots[k := slots[k].(teams := slots[k].teams + [e.team])][i] == SlotAfter(es + [e], j, i)
  {
    assert (es + [e])[..j] == es[..j];
    Grows(es, e, if i < j then es[i].org else "");
    if i < j {
      assert es[..j][i] in es[..j];
    }
    if k < j {
      assert es[..j][k] in es[..j];
    }
  }

  /** The entry opens a slot. */
  lemma OpenedSlot(slots: seq<Org>, es: seq<Entry>, e: Entry, j: nat)
    requires Slots(slots, es, j) && j == |es| < |slots|
    requires forall a :: 0 <= a < j ==> slots[a].name != e.org
    ensures slots[j] == Org("", []) && e.org !in Orgs(es)
    ensures Slots(slots[j := Org(e.org, [e.team])], es + [e], j + 1)
  {
    var after := slots[j := Org(e.org, [e.team])];
    assert es[..j] == es && (es + [e])[..j + 1] == es + [e];
    NoTeams(es, "");
    forall x | x in es ensures x.org != e.org {
      var a :| 0 <= a < j && es[a] == x;
      assert slots[a].name == x.org;
    }
    NoTeams(es, e.org);
    forall i | 0 <= i < |after| ensures after[i] == SlotAfter(es + [e], j + 1, i) {
      OpenedAt(slots, es, e, j, i);
    }
  }

  lemma OpenedAt(slots: seq<Org>, es: seq<Entry>, e: Entry, j: nat, i: nat)
    requires Slots(slots, es, j) && j == |es| < |slots| && i < |slots|
    requires e.org !in Orgs(es) && TeamsOf(es, e.org) == [] && ("" !in Orgs(es) ==> TeamsOf(es, "") == [])
    ensures slots[j := Org(e.org, [e.team])][i] == SlotAfter(es + [e], j + 1, i)
  {
    assert es[..j] == es && (es + [e])[..j + 1] == es + [e];
    assert forall x :: x in es + [e] <==> x in es || x == e;
    Grows(es, e, if i < j then es[i].org else if i == j then e.org else "");
    if i < j {
      assert es[i] in es;
    }
  }

  /** The entry of a new organisation is dropped. */
  lemma DroppedEntry(slots: seq<Org>, es: seq<Entry>, e: Entry, j: nat)
    requires Slots(slots, es, j) && j < |es| && j < |slots|
    requires forall a :: 0 <= a <= j ==> slots[a].name != e.org
    ensures Slots(slots, es + [e], j)
  {
    assert (es + [e])[..j] == es[..j] && slots[j].name == "";
    forall i | 0 <= i < |slots| ensures slots[i] == SlotAfter(es + [e], j, i) {
      Grows(es, e, if i < j then es[i].org else "");
      assert i < j ==> slots[i].name == es[i].org;
    }
  }

  lemma FindsExactly(slots: seq<Org>, es: seq<Entry>, i: nat, org: string)
    requires Slots(slots, es, |es|) && |es| <= i <= |slots|
    ensures (exists k :: 0 <= k < i && slots[k].name == org) <==> Finds(es, i, org)
  {
    if exists k :: 0 <= k < i && slots[k].name == org {
      var k :| 0 <= k < i && slots[k].name == org;
      if k < |es| {
        assert es[k] in es;
      }
    }
    if org in Orgs(es) {
      var e :| e in es && e.org == org;
      var k :| 0 <= k < |es| && es[k] == e;
      assert slots[k].name == org;
    } else if org == "" && |es| < i {
      assert slots[|es|].name == "";
    }
  }

  /** The loop has seen `teams`, with the entries `es`. */
  ghost predicate GroupedTo(slots: seq<Org>, teams: seq<string>, es: seq<Entry>, j: nat, flag: bool) {
    es == Entries(teams) && j == Opened(teams) && Slots(slots, es, j) && (flag <==> j < |es|)
  }

  lemma NextEntry(teams: seq<string>, i: nat)
    requires i < |teams|
    ensures var s, n, es := Split(teams[i]), Opened(teams[..i]), Entries(teams[..i]);
            && Entries(teams[..i + 1]) == es + (if |s| == 2 then [Entry(s[0], s[1])] else [])
            && Opened(teams[..i + 1]) == if |s| != 2 || n < |es| || Finds(es, i, s[0]) then n else n + 1
  {
    assert teams[..i + 1][..i] == teams[..i];
  }

  lemma MalformedEntry(slots: seq<Org>, teams: seq<string>, i: nat, es: seq<Entry>, j: nat, flag: bool)
    requires i < |teams| && |Split(teams[i])| != 2 && GroupedTo(slots, teams[..i], es, j, flag)
    ensures GroupedTo(slots, teams[..i + 1], es, j, flag)
  {
    NextEntry(teams, i);
    assert es + [] == es;
  }

  lemma PlacedEntry(slots: seq<Org>, teams: seq<string>, i: nat, es: seq<Entry>, e: Entry, n: nat, j: nat, flag: bool)
    requires i < |teams| && Split(teams[i]) == [e.org, e.team] && es == Entries(teams[..i]) && n == Opened(teams[..i])
    requires j == if n < |es| || Finds(es, i, e.org) then n else n + 1
    requires Slots(slots, es + [e], j) && (flag <==> j < |es| + 1)
    ensures GroupedTo(slots, teams[..i + 1], es + [e], j, flag)
  {
    NextEntry(teams, i);
  }

  /** One turn of the loop, for the well-formed entry `org/team`. */
  method PlaceTeam(orgs: array<Org>, i: nat, j: nat, flag: bool, org: string, team: string, ghost es: seq<Entry>)
    returns (j': nat, flag': bool)
    requires |es| <= i < orgs.Length && Slots(orgs[..], es, j) && DistinctOrgs(es, j) && (flag <==> j < |es|)
    modifies orgs
    ensures j' == if flag || Finds(es, i, org) then j else j + 1
    ensures Slots(orgs[..], es + [Entry(org, team)], j') && (flag' <==> j' < |es| + 1)
  {
    ghost var slots, e := orgs[..], Entry(org, team);
    j', flag' := j, flag;
    var k := FindOrg(orgs, i, org);
    if !flag {
      FindsExactly(slots, es, i, org);
    }
    if k < i {
      JoinedSlot(slots, es, e, j, k);
      orgs[k] := orgs[k].(teams := orgs[k].teams + [team]);
      flag' := true;
      assert orgs[..] == slots[k := slots[k].(teams := slots[k].teams + [e.team])];
    } else if flag {
      DroppedEntry(slots, es, e, j);
    }
    if !flag' {
      OpenedSlot(slots, es, e, j);
      orgs[j] := Org(org, orgs[j].teams + [team]);
      j' := j + 1;
      assert slots[j].teams + [team] == [team];
      assert orgs[..] == slots[j := Org(e.org, [e.team])];
    }
  }

  /** The grouping loop; `flag` is never reset, so after the first entry of a known organisation no
      slot is opened any more. */
  method GroupTeams(teams: seq<string>) returns (orgs: array<Org>, j: nat)
    ensures fresh(orgs) && orgs[..] == Grouped(teams) && j == Opened(teams)
  {
    orgs := new Org[|teams|](_ => Org("", []));
    j := 0;
    var flag := false;
    ghost var es: seq<Entry> := [];
    for i := 0 to |teams|
      invariant |es| <= i && GroupedTo(orgs[..], teams[..i], es, j, flag)
    {
      var s := Split(teams[i]);
      if |s| == 2 {
        ghost var n := j;
        j, flag := PlaceTeam(orgs, i, j, flag, s[0], s[1], es);
        PlacedEntry(orgs[..], teams, i, es, Entry(s[0], s[1]), n, j, flag);
        es := es + [Entry(s[0], s[1])];
      } else {
        MalformedEntry(orgs[..], teams, i, es, j, flag);
      }
    }
    assert teams[..|teams|] == teams;
  }

  /** The slot of an entry holds its team. */
  predicate Listed(slots: seq<Org>, e: Entry) {
    exists k :: 0 <= k < |slots| && slots[k].name == e.org && e.team in slots[k].teams
  }

  lemma {:induction false} TeamListed(es: seq<Entry>, e: Entry)
    requires e in es
    ensures e.team in TeamsOf(es, e.org)
  {
    if es[|es| - 1] != e {
      assert e in es[..|es| - 1];
      TeamListed(es[..|es| - 1], e);
    }
  }

  /** Every entry is listed exactly when each one after the opened slots has no organisation, or one with
      a slot. */
  lemma GroupedCompletely(teams: seq<string>)
    ensures var es, n := Entries(teams), Opened(teams);
            (forall e <- es :: Listed(Grouped(teams), e)) <==>
            (forall i :: n <= i < |es| ==> es[i].org == "" || es[i].org in Orgs(es[..n]))
  {
    var es, n := Entries(teams), Opened(teams);
    forall i | 0 <= i < |es| ensures Listed(Grouped(teams), es[i]) <==>
        (n <= i ==> es[i].org == "" || es[i].org in Orgs(es[..n]))
    {
      ListedExactly(teams, i);
    }
    assert forall e :: e in es <==> exists i :: 0 <= i < |es| && es[i] == e;
  }

  lemma ListedExactly(teams: seq<string>, i: nat)
    requires i < |Entries(teams)|
    ensures var es, n := Entries(teams), Opened(teams);
            Listed(Grouped(teams), es[i]) <==> (n <= i ==> es[i].org == "" || es[i].org in Orgs(es[..n]))
  {
    var es, n, slots := Entries(teams), Opened(teams), Grouped(teams);
    if Listed(slots, es[i]) {
      var k :| 0 <= k < |slots| && slots[k].name == es[i].org && es[i].team in slots[k].teams;
      if k < n {
        assert es[..n][k] in es[..n];
      }
    }
    if n <= i ==> es[i].org == "" || es[i].org in Orgs(es[..n]) {
      var k := SlotOf(es, n, i);
      TeamListed(es, es[i]);
      assert slots[k] == SlotAfter(es, n, k);
    }
  }

  /** The slot that carries the organisation of an entry. */
  lemma SlotOf(es: seq<Entry>, n: nat, i: nat) returns (k: nat)
    requires n <= |es| && i < |es| && (n <= i ==> es[i].org == "" || es[i].org in Orgs(es[..n]))
    ensures k <= i && SlotAfter(es, n, k) == Org(es[i].org, TeamsOf(es, es[i].org))
  {
    if i < n {
      k := i;
    } else if es[i].org in Orgs(es[..n]) {
      var e :| e in es[..n] && e.org == es[i].org;
      k :| 0 <= k < n && es[k] == e;
    } else {
      k := n;
    }
  }

  const LOSING := ["a/1", "a/2", "b/1"]

  lemma SplitsPair(a: char, b: char)
    requires a != '/' && b != '/'
    ensures Split([a, '/', b]) == [[a], [b]]
  {
    assert [b][1..] == "" && Split([b]) == [[b] + ""] + [""][1..] == [[b]];
    assert ['/', b][1..] == [b] && Split(['/', b]) == [""] + [[b]];
    assert [a, '/', b][1..] == ['/', b];
    var rest := [""] + [[b]];
    assert Split([a, '/', b]) == [[a] + rest[0]] + rest[1..];
    assert [a] + rest[0] == [a] && rest[1..] == [[b]];
  }

  lemma FirstLosingEntry()
    ensures Entries(LOSING[..1]) == [Entry("a", "1")] && Opened(LOSING[..1]) == 1
  {
    SplitsPair('a', '1');
    assert LOSING[..0] == [];
    NextEntry(LOSING, 0);
  }

  lemma LosingEntries()
    ensures Entries(LOSING[..2]) == [Entry("a", "1"), Entry("a", "2")] && Opened(LOSING[..2]) == 1
  {
    FirstLosingEntry();
    SplitsPair('a', '2');
    NextEntry(LOSING, 1);
    assert Entry("a", "1") in Entries(LOSING[..1]);
  }

  /** An entry that is lost. */
  lemma LosesTeam()
    ensures Entry("b", "1") in Entries(LOSING) && !Listed(Grouped(LOSING), Entry("b", "1"))
  {
    LosingEntries();
    SplitsPair('b', '1');
    NextEntry(LOSING, 2);
    assert LOSING[..3] == LOSING;
    var es := Entries(LOSING);
    assert es == [Entry("a", "1"), Entry("a", "2"), Entry("b", "1")] && es[..1] == [Entry("a", "1")];
    assert es[2] == Entry("b", "1");
    ListedExactly(LOSING, 2);
  }
}
