/** The table engine, after `src/compression/engines/json-table-engine.ts`: an array of alike records as columns and rows. */
module Tables {
  import opened Basics

  /** An element of a parsed JSON array: an object, its fields in order and named once each, or anything else. */
  datatype Parsed<V> = Record(fields: seq<(string, V)>) | Other

  datatype Table<V> = Table(columns: seq<string>, rows: seq<seq<V>>)

  ghost predicate NamedOnce<V>(fields: seq<(string, V)>) {
    forall i, j :: 0 <= i < j < |fields| ==> fields[i].0 != fields[j].0
  }

  ghost predicate IsParsed<V>(elements: seq<Parsed<V>>) {
    forall i :: 0 <= i < |elements| && elements[i].Record? ==> NamedOnce(elements[i].fields)
  }

  function Keys<V>(fields: seq<(string, V)>): (keys: seq<string>)
    ensures |keys| == |fields| && forall i :: 0 <= i < |fields| ==> keys[i] == fields[i].0
  {
    seq(|fields|, i requires 0 <= i < |fields| => fields[i].0)
  }

  /** A record as the map it stands for. */
  function AsMap<V>(fields: seq<(string, V)>): map<string, V> {
    if fields == [] then map[] else AsMap(fields[..|fields| - 1])[fields[|fields| - 1].0 := fields[|fields| - 1].1]
  }

  lemma {:induction false} AsMapAt<V>(fields: seq<(string, V)>, key: string)
    requires NamedOnce(fields)
    ensures key in AsMap(fields) <==> exists i :: 0 <= i < |fields| && fields[i].0 == key
    ensures forall i :: 0 <= i < |fields| && fields[i].0 == key ==> key in AsMap(fields) && AsMap(fields)[key] == fields[i].1
  {
    if fields != [] {
      var front, last := fields[..|fields| - 1], fields[|fields| - 1];
      AsMapAt(front, key);
      assert forall i :: 0 <= i < |front| ==> front[i] == fields[i];
    }
  }

  ghost predicate SameKeys<V>(fields: seq<(string, V)>, columns: seq<string>) {
    forall key :: key in Keys(fields) <==> key in columns
  }

  /** The number of keys agrees and each is wanted: enough, because none is named twice. */
  method HasKeys<V>(fields: seq<(string, V)>, columns: seq<string>) returns (same: bool)
    requires NamedOnce(fields) && NoRepeats(columns)
    ensures same == SameKeys(fields, columns)
  {
    var keys := Keys(fields);
    assert NoRepeats(keys);
    Sizes(keys);
    Sizes(columns);
    var want := set k | k in columns;
    ghost var have := set k | k in keys;
    assert SameKeys(fields, columns) ==> have == want;
    if |keys| != |columns| {
      return false;
    }
    for i := 0 to |keys|
      invariant forall k :: k in keys[..i] ==> k in want
    {
      assert keys[i] in keys;
      if keys[i] !in want {
        return false;
      }
      assert keys[..i + 1] == keys[..i] + [keys[i]];
    }
    assert keys[..|keys|] == keys;
    SubsetOfSize(have, want);
    forall key ensures key in keys <==> key in columns {
      assert key in have <==> key in want;
    }
    return true;
  }

  lemma {:induction false} Sizes(s: seq<string>)
    requires NoRepeats(s)
    ensures |set k | k in s| == |s|
  {
    if s != [] {
      var front, last := s[..|s| - 1], s[|s| - 1];
      Sizes(front);
      assert s == front + [last];
      assert (set k | k in s) == (set k | k in front) + {last};
    }
  }

  lemma SubsetOfSize(a: set<string>, b: set<string>)
    requires a <= b && |a| == |b|
    ensures a == b
  {
    assert b == a + (b - a);
    assert |b - a| == 0;
  }

  /** What may be tabulated: enough records, all with the first one's keys. */
  ghost predicate Alike<V>(elements: seq<Parsed<V>>, minRows: nat) {
    && |elements| >= Max(minRows, 1) && elements[0].Record?
    && forall i :: 0 <= i < |elements| ==> elements[i].Record? && SameKeys(elements[i].fields, Keys(elements[0].fields))
  }

  /** Reading a row under the columns. */
  function RowAsMap<V>(columns: seq<string>, row: seq<V>): map<string, V>
    requires |row| == |columns|
  {
    if columns == [] then map[]
    else RowAsMap(columns[..|columns| - 1], row[..|row| - 1])[columns[|columns| - 1] := row[|row| - 1]]
  }

  lemma {:induction false} RowAsMapAt<V>(columns: seq<string>, row: seq<V>, key: string)
    requires |row| == |columns| && NoRepeats(columns)
    ensures key in RowAsMap(columns, row) <==> key in columns
    ensures forall i :: 0 <= i < |columns| && columns[i] == key ==> key in RowAsMap(columns, row) && RowAsMap(columns, row)[key] == row[i]
  {
    if columns != [] {
      var front, last := columns[..|columns| - 1], columns[|columns| - 1];
      RowAsMapAt(front, row[..|row| - 1], key);
      assert columns == front + [last];
    }
  }

  /** One value for each column. */
  method Row<V>(fields: seq<(string, V)>, columns: seq<string>) returns (row: seq<V>)
    requires NamedOnce(fields) && NoRepeats(columns) && SameKeys(fields, columns)
    ensures |row| == |columns| && RowAsMap(columns, row) == AsMap(fields)
  {
    var values := AsMap(fields);
    forall key ensures key in values <==> key in columns {
      AsMapAt(fields, key);
      assert key in Keys(fields) <==> key in columns;
    }
    row := [];
    for i := 0 to |columns|
      invariant |row| == i && forall j :: 0 <= j < i ==> row[j] == values[columns[j]]
    {
      assert columns[i] in columns;
      row := row + [values[columns[i]]];
    }
    forall key ensures key in RowAsMap(columns, row) <==> key in values
      ensures key in values ==> key in RowAsMap(columns, row) && RowAsMap(columns, row)[key] == values[key]
    {
      RowAsMapAt(columns, row, key);
      if key in columns {
        var j :| 0 <= j < |columns| && columns[j] == key;
        assert row[j] == values[columns[j]];
      }
    }
  }

  /**
   * The table, when the elements are alike and there are enough of them; nothing otherwise. Reading its rows
   * under its columns gives back the same records, as maps, in order.
   */
  method Tabulate<V>(elements: seq<Parsed<V>>, minRows: nat) returns (table: Option<Table<V>>)
    requires IsParsed(elements) && minRows >= 2
    ensures table.Some? <==> Alike(elements, minRows)
    ensures table.Some? ==>
      && NoRepeats(table.value.columns) && |table.value.rows| == |elements|
      && forall i :: 0 <= i < |elements| ==>
           && |table.value.rows[i]| == |table.value.columns|
           && RowAsMap(table.value.columns, table.value.rows[i]) == AsMap(elements[i].fields)
  {
    hide SameKeys, AsMap, RowAsMap;
    if |elements| < minRows || !elements[0].Record? {
      return None;
    }
    var columns, rows: seq<seq<V>> := Keys(elements[0].fields), [];
    assert NoRepeats(columns);
    for i := 0 to |elements|
      invariant |rows| == i
      invariant forall j :: 0 <= j < i ==> elements[j].Record? && SameKeys(elements[j].fields, columns)
      invariant forall j :: 0 <= j < i ==> |rows[j]| == |columns| && RowAsMap(columns, rows[j]) == AsMap(elements[j].fields)
    {
      if !elements[i].Record? {
        return None;
      }
      var same := HasKeys(elements[i].fields, columns);
      if !same {
        return None;
      }
      var row := Row(elements[i].fields, columns);
      rows := rows + [row];
    }
    return Some(Table(columns, rows));
  }
}
