/** Tables of rows: written in ascending order of id, read back row by row. */
module Tables {
  import opened Bits
  import opened Fields

  type Table = map<nat, Row>

  function RowId(row: Row): nat { if |row| > 0 && row[0].Num? then row[0].value else 0 }

  /** Every row sits under its own id. */
  ghost predicate Keyed(t: Table) { forall k :: k in t ==> RowId(t[k]) == k }

  ghost predicate TableFits(t: Table, schema: Schema) {
    |t| <= MAX_ROWS && forall k :: k in t ==> RowFits(t[k], schema)
  }

  // ---------------------------------------------------------------------
  // Ascending order
  // ---------------------------------------------------------------------

  ghost predicate Ascending(ks: seq<nat>) { forall i, j :: 0 <= i < j < |ks| ==> ks[i] < ks[j] }

  ghost predicate ListsKeys(ks: seq<nat>, keys: set<nat>) {
    Ascending(ks) && forall k :: k in keys <==> k in ks
  }

  ghost predicate IsLeast(m: nat, keys: set<nat>) { m in keys && forall j :: j in keys ==> m <= j }

  lemma {:induction false} Least(keys: set<nat>) returns (m: nat)
    requires keys != {}
    ensures IsLeast(m, keys)
    decreases |keys|
  {
    var k :| k in keys;
    var rest := keys - {k};
    assert forall j :: j in keys ==> j == k || j in rest;
    m := k;
    if rest != {} {
      var least := Least(rest);
      if least < k { m := least; }
    }
  }

  lemma LeastExists(keys: set<nat>)
    requires keys != {}
    ensures exists m :: IsLeast(m, keys)
  {
    var m := Least(keys);
  }

  lemma LeastLeads(k: nat, ks: seq<nat>, keys: set<nat>)
    requires IsLeast(k, keys) && ListsKeys(ks, keys - {k})
    ensures ListsKeys([k] + ks, keys)
  {
    var all := [k] + ks;
    forall i, j | 0 <= i < j < |all| ensures all[i] < all[j] {
      assert all[j] == ks[j - 1] && ks[j - 1] in ks;
    }
  }

  ghost function SortedKeys(keys: set<nat>): (ks: seq<nat>)
    ensures ListsKeys(ks, keys) && |ks| == |keys|
  {
    if keys == {} then []
    else
      LeastExists(keys);
      var k :| IsLeast(k, keys);
      var fewer := keys - {k};
      var rest := SortedKeys(fewer);
      LeastLeads(k, rest, keys);
      assert |fewer| == |keys| - 1;
      [k] + rest
  }

  /** There is only one ascending listing of a set. */
  lemma {:induction false} AscendingIsUnique(a: seq<nat>, b: seq<nat>, keys: set<nat>)
    requires ListsKeys(a, keys) && ListsKeys(b, keys)
    ensures a == b
  {
    assert (a != [] ==> a[0] in a) && (b != [] ==> b[0] in b);
    if a != [] && b != [] {
      assert a[0] in keys && b[0] in keys;
      assert a[0] == b[0];
      var rest := keys - {a[0]};
      assert forall k :: k in rest <==> k in a[1..];
      assert forall k :: k in rest <==> k in b[1..];
      AscendingIsUnique(a[1..], b[1..], rest);
      assert a == [a[0]] + a[1..] && b == [b[0]] + b[1..];
    }
  }

  ghost function RowsOf(t: Table): (rows: seq<Row>)
    ensures |rows| == |t|
  {
    RowsBy(t, SortedKeys(t.Keys))
  }

  ghost function RowsBy(t: Table, ks: seq<nat>): (rows: seq<Row>)
    requires forall k :: k in ks ==> k in t
    ensures |rows| == |ks|
  {
    seq(|ks|, i requires 0 <= i < |ks| => t[ks[i]])
  }

  // ---------------------------------------------------------------------
  // Filing rows
  // ---------------------------------------------------------------------

  /** Rows filed one after the other; a later row replaces an earlier one with the same id. */
  function Filed(rows: seq<Row>): Table {
    if rows == [] then map[] else Filed(rows[..|rows| - 1])[RowId(rows[|rows| - 1]) := rows[|rows| - 1]]
  }

  lemma {:induction false} FiledKeys(rows: seq<Row>)
    ensures forall k :: k in Filed(rows) ==>
              exists i :: 0 <= i < |rows| && rows[i] == Filed(rows)[k] && RowId(rows[i]) == k
    ensures forall i :: 0 <= i < |rows| ==> RowId(rows[i]) in Filed(rows)
  {
    if rows != [] {
      var front := rows[..|rows| - 1];
      FiledKeys(front);
      forall k | k in Filed(rows)
        ensures exists i :: 0 <= i < |rows| && rows[i] == Filed(rows)[k] && RowId(rows[i]) == k
      {
        if k == RowId(rows[|rows| - 1]) {
          assert rows[|rows| - 1] == Filed(rows)[k];
        } else {
          var i :| 0 <= i < |front| && front[i] == Filed(front)[k] && RowId(front[i]) == k;
          assert rows[i] == Filed(rows)[k];
        }
      }
      forall i | 0 <= i < |rows| ensures RowId(rows[i]) in Filed(rows) {
        if i < |rows| - 1 { assert front[i] == rows[i]; }
      }
    }
  }

  /** The rows of a table, in any listing of its keys, file back into the table. */
  lemma FiledRowsBy(t: Table, ks: seq<nat>)
    requires Keyed(t) && forall k :: k in t <==> k in ks
    ensures Filed(RowsBy(t, ks)) == t
  {
    hide Filed;
    var rows := RowsBy(t, ks);
    FiledKeys(rows);
    forall k | k in t ensures k in Filed(rows) {
      var i :| 0 <= i < |ks| && ks[i] == k;
      assert rows[i] == t[k];
    }
    forall k | k in Filed(rows) ensures k in t && Filed(rows)[k] == t[k] {
      var i :| 0 <= i < |rows| && rows[i] == Filed(rows)[k] && RowId(rows[i]) == k;
      assert ks[i] in t && rows[i] == t[ks[i]];
    }
  }

  lemma FiledRowsOf(t: Table)
    requires Keyed(t)
    ensures Filed(RowsOf(t)) == t
  {
    hide Filed, Keyed, RowsBy;
    FiledRowsBy(t, SortedKeys(t.Keys));
  }

  // ---------------------------------------------------------------------
  // Tables in a file
  // ---------------------------------------------------------------------

  ghost function EncodeTable(t: Table): seq<Byte> { LittleEndian(|t|, 4) + EncodeRows(RowsOf(t)) }

  function ParseTable(schema: Schema, bytes: seq<Byte>): (p: Parsed<Table>)
    ensures p.Parsed? ==> |p.rest| <= |bytes|
  {
    var n := ParseUnsigned(bytes, 4);
    if n.Malformed? || n.value > MAX_ROWS then Malformed
    else
      var rows := ParseRows(schema, n.value, n.rest);
      if rows.Malformed? then Malformed else Parsed(Filed(rows.value), rows.rest)
  }

  ghost function EncodeTables(ts: seq<Table>): seq<Byte> {
    if ts == [] then [] else EncodeTable(ts[0]) + EncodeTables(ts[1..])
  }

  function ParseTables(schemas: seq<Schema>, bytes: seq<Byte>): (p: Parsed<seq<Table>>)
    ensures p.Parsed? ==> |p.value| == |schemas|
  {
    if schemas == [] then Parsed([], bytes)
    else
      var t := ParseTable(schemas[0], bytes);
      if t.Malformed? then Malformed
      else
        var ts := ParseTables(schemas[1..], t.rest);
        if ts.Malformed? then Malformed else Parsed([t.value] + ts.value, ts.rest)
  }

  lemma RowsFit(t: Table, schema: Schema)
    requires TableFits(t, schema)
    ensures forall i :: 0 <= i < |RowsOf(t)| ==> RowFits(RowsOf(t)[i], schema)
  {
    var ks := SortedKeys(t.Keys);
    forall i | 0 <= i < |ks| ensures RowFits(RowsOf(t)[i], schema) {
      assert ks[i] in t;
    }
  }

  lemma TableReadsBack(t: Table, schema: Schema, rest: seq<Byte>)
    requires Keyed(t) && TableFits(t, schema)
    ensures ParseTable(schema, EncodeTable(t) + rest) == Parsed(t, rest)
  {
    hide Pow2, LittleEndian, Unsigned, ParseUnsigned, ParseRows, EncodeRows, RowsOf, RowFits, Filed, Keyed;
    PowersOfTwo();
    RowsFit(t, schema);
    var rows := RowsOf(t);
    assert EncodeTable(t) + rest == LittleEndian(|t|, 4) + (EncodeRows(rows) + rest);
    UnsignedReadsBack(|t|, 4, EncodeRows(rows) + rest);
    RowsReadBack(rows, schema, rest);
    FiledRowsOf(t);
  }

  lemma {:induction false} TablesReadBack(ts: seq<Table>, schemas: seq<Schema>, rest: seq<Byte>)
    requires |ts| == |schemas|
    requires forall i :: 0 <= i < |ts| ==> Keyed(ts[i]) && TableFits(ts[i], schemas[i])
    ensures ParseTables(schemas, EncodeTables(ts) + rest) == Parsed(ts, rest)
  {
    hide Keyed, TableFits, EncodeTable, ParseTable;
    if ts == [] {
      assert EncodeTables(ts) + rest == rest;
    } else {
      assert EncodeTables(ts) + rest == EncodeTable(ts[0]) + (EncodeTables(ts[1..]) + rest);
      TableReadsBack(ts[0], schemas[0], EncodeTables(ts[1..]) + rest);
      TablesReadBack(ts[1..], schemas[1..], rest);
      assert [ts[0]] + ts[1..] == ts;
    }
  }
}
