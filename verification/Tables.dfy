/** Lists of named rows, searched by first index, and the maps they stand for. */
module Tables {

  datatype Row<T> = Row(name: string, data: T)

  /** The first index of a name, or -1. */
  function IndexOf<T>(rows: seq<Row<T>>, name: string): (i: int)
    ensures -1 <= i < |rows|
    ensures i >= 0 ==> rows[i].name == name
    ensures forall k :: 0 <= k < (if i == -1 then |rows| else i) ==> rows[k].name != name
  {
    if rows == [] then -1
    else if rows[0].name == name then 0
    else
      var i := IndexOf(rows[1..], name);
      if i == -1 then -1 else i + 1
  }

  predicate Distinct<T>(rows: seq<Row<T>>) {
    forall i, j :: 0 <= i < j < |rows| ==> rows[i].name != rows[j].name
  }

  /** The map of the rows, in which the first row of a name counts. */
  function Table<T>(rows: seq<Row<T>>): map<string, T> {
    if rows == [] then map[] else Table(rows[1..])[rows[0].name := rows[0].data]
  }

  lemma {:induction false} Lookup<T>(rows: seq<Row<T>>, name: string)
    ensures name in Table(rows) <==> IndexOf(rows, name) >= 0
    ensures name in Table(rows) ==> Table(rows)[name] == rows[IndexOf(rows, name)].data
  {
    if rows != [] {
      Lookup(rows[1..], name);
    }
  }

  /** Replacing the row of a name, or appending one when there is none. */
  function Upserted<T>(rows: seq<Row<T>>, name: string, data: T): seq<Row<T>> {
    var i := IndexOf(rows, name);
    if i == -1 then rows + [Row(name, data)] else rows[i := Row(name, data)]
  }

  function Removed<T>(rows: seq<Row<T>>, name: string): seq<Row<T>> {
    var i := IndexOf(rows, name);
    if i == -1 then rows else rows[..i] + rows[i + 1..]
  }

  lemma UpsertKeepsDistinct<T>(rows: seq<Row<T>>, name: string, data: T)
    requires Distinct(rows)
    ensures Distinct(Upserted(rows, name, data))
  {
  }

  lemma RemoveKeepsDistinct<T>(rows: seq<Row<T>>, name: string)
    requires Distinct(rows)
    ensures Distinct(Removed(rows, name))
  {
  }

  /** An upsert is the update of one key of the map. */
  lemma {:induction false} UpsertIsMapUpdate<T>(rows: seq<Row<T>>, name: string, data: T)
    ensures Table(Upserted(rows, name, data)) == Table(rows)[name := data]
  {
    if rows != [] {
      if rows[0].name == name {
        assert Upserted(rows, name, data) == [Row(name, data)] + rows[1..];
      } else {
        UpsertIsMapUpdate(rows[1..], name, data);
        assert Upserted(rows, name, data) == [rows[0]] + Upserted(rows[1..], name, data);
      }
    }
  }

  lemma PutThenRemove<T>(m: map<string, T>, k: string, v: T, name: string)
    ensures m[k := v] - {name} == if k == name then m - {name} else (m - {name})[k := v]
  {
  }

  lemma RemovedRest<T>(rows: seq<Row<T>>, name: string)
    requires rows != [] && rows[0].name != name
    ensures Removed(rows, name) == [rows[0]] + Removed(rows[1..], name)
  {
    var i, j := IndexOf(rows, name), IndexOf(rows[1..], name);
    if j == -1 {
      assert i == -1 && rows == [rows[0]] + rows[1..];
    } else {
      assert i == j + 1;
      CutRest(rows, i, j);
    }
  }

  lemma CutRest<T>(rows: seq<Row<T>>, i: nat, j: nat)
    requires i == j + 1 < |rows|
    ensures rows[..i] + rows[i + 1..] == [rows[0]] + (rows[1..][..j] + rows[1..][j + 1..])
  {
    assert rows[1..][j + 1..] == rows[i + 1..];
    assert [rows[0]] + rows[1..][..j] == rows[..i];
  }

  /** With distinct names, a removal is that of one key. */
  lemma {:induction false} RemoveIsMapRemoval<T>(rows: seq<Row<T>>, name: string)
    requires Distinct(rows)
    ensures Table(Removed(rows, name)) == Table(rows) - {name}
  {
    if rows != [] {
      if rows[0].name == name {
        assert Removed(rows, name) == rows[1..];
        assert IndexOf(rows[1..], name) == -1;
        Lookup(rows[1..], name);
        PutThenRemove(Table(rows[1..]), name, rows[0].data, name);
      } else {
        assert Distinct(rows[1..]);
        RemoveIsMapRemoval(rows[1..], name);
        RemovedRest(rows, name);
        PutThenRemove(Table(rows[1..]), rows[0].name, rows[0].data, name);
      }
    }
  }

  /** In general, exactly when the name has no second row. */
  lemma RemovalExactly<T>(rows: seq<Row<T>>, name: string)
    requires IndexOf(rows, name) >= 0
    ensures name !in Table(Removed(rows, name)) <==> IndexOf(rows[IndexOf(rows, name) + 1..], name) == -1
  {
    var i := IndexOf(rows, name);
    var after, rest := Removed(rows, name), rows[i + 1..];
    Lookup(after, name);
    var k := IndexOf(rest, name);
    if k >= 0 {
      assert after[i + k] == rest[k];
    }
    var j := IndexOf(after, name);
    if j >= 0 {
      assert j >= i && after[j] == rest[j - i];
    }
  }
}
