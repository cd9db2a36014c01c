/** Writing and reading the state file as it is done: bytes pushed onto a growing buffer, and a cursor
    moving over the bytes of a file. */
module StateFileIo {
  import opened Bits
  import opened Crc32
  import opened Types
  import opened Fields
  import opened Tables
  import opened Records
  import opened CoordinatorModel
  import opened StateFile

  // ---------------------------------------------------------------------
  // Writing
  // ---------------------------------------------------------------------

  /** Keys in ascending order, whatever order they are visited in. */
  method SortKeys(keys: set<nat>) returns (ks: seq<nat>)
    ensures ks == SortedKeys(keys)
  {
    ks := [];
    var todo := keys;
    while todo != {}
      invariant todo <= keys && ListsKeys(ks, keys - todo)
    {
      var k :| k in todo;
      ks := InsertKey(ks, k, keys - todo);
      todo := todo - {k};
      assert keys - todo == (keys - (todo + {k})) + {k};
    }
    assert keys - todo == keys;
    AscendingIsUnique(ks, SortedKeys(keys), keys);
  }

  method InsertKey(ks: seq<nat>, k: nat, ghost keys: set<nat>) returns (r: seq<nat>)
    requires ListsKeys(ks, keys) && k !in keys
    ensures ListsKeys(r, keys + {k})
  {
    var i := 0;
    while i < |ks| && ks[i] < k
      invariant i <= |ks| && forall j :: 0 <= j < i ==> ks[j] < k
    {
      i := i + 1;
    }
    r := ks[..i] + [k] + ks[i..];
    InsertedKeeps(ks, k, i, keys);
  }

  lemma InsertedKeeps(ks: seq<nat>, k: nat, i: nat, keys: set<nat>)
    requires ListsKeys(ks, keys) && k !in keys && i <= |ks|
    requires (forall j :: 0 <= j < i ==> ks[j] < k) && (i < |ks| ==> k <= ks[i])
    ensures ListsKeys(ks[..i] + [k] + ks[i..], keys + {k})
  {
    var low, high := ks[..i], ks[i..];
    assert ks == low + high;
    if i < |ks| { assert ks[i] in ks; }
    AscendingInserted(low, k, high);
    MembersInserted(low, k, high);
  }

  lemma MembersInserted(low: seq<nat>, k: nat, high: seq<nat>)
    ensures forall x :: x in low + [k] + high <==> x in low + high || x == k
  {
    forall x ensures x in low + [k] + high <==> x in low + high || x == k {
      assert x in low + [k] + high <==> x in low || x == k || x in high;
    }
  }

  lemma AscendingInserted(low: seq<nat>, k: nat, high: seq<nat>)
    requires Ascending(low) && Ascending(high)
    requires (forall j :: 0 <= j < |low| ==> low[j] < k) && (forall j :: 0 <= j < |high| ==> k < high[j])
    ensures Ascending(low + [k] + high)
  {
    var r := low + [k] + high;
    forall i, j | 0 <= i < j < |r| ensures r[i] < r[j] {
      assert r[i] == if i < |low| then low[i] else if i == |low| then k else high[i - |low| - 1];
      assert r[j] == if j < |low| then low[j] else if j == |low| then k else high[j - |low| - 1];
    }
  }

  class Writer {
    var bytes: seq<Byte>

    constructor ()
      ensures bytes == []
    {
      bytes := [];
    }

    /** The low n bytes of v, least significant first. */
    method PutUnsigned(v: nat, n: nat)
      modifies this
      ensures bytes == old(bytes) + LittleEndian(v, n)
    {
      var rest := v;
      for i := 0 to n
        invariant bytes + LittleEndian(rest, n - i) == old(bytes) + LittleEndian(v, n)
      {
        assert LittleEndian(rest, n - i) == [rest % 256] + LittleEndian(rest / 256, n - i - 1);
        assert bytes + LittleEndian(rest, n - i) == (bytes + [rest % 256]) + LittleEndian(rest / 256, n - i - 1);
        bytes := bytes + [rest % 256];
        rest := rest / 256;
      }
    }

    method PutText(t: Text)
      modifies this
      ensures bytes == old(bytes) + EncodeText(t)
    {
      PutUnsigned(|t|, 4);
      bytes := bytes + t;
    }

    method PutField(f: Field)
      modifies this
      ensures bytes == old(bytes) + EncodeField(f)
    {
      hide LittleEndian, EncodeText;
      match f {
        case Num(v) => PutUnsigned(v, 8);
        case Count(v) => PutUnsigned(v, 4);
        case Flag(on) => PutUnsigned(if on then 1 else 0, 4);
        case Tag(v) => PutUnsigned(v, 4);
        case Str(t) => PutText(t);
        case Strs(ts) =>
          PutUnsigned(|ts|, 4);
          ghost var start := bytes;
          for i := 0 to |ts|
            invariant bytes + EncodeTexts(ts[i..]) == start + EncodeTexts(ts)
          {
            assert bytes + EncodeTexts(ts[i..]) == (bytes + EncodeText(ts[i])) + EncodeTexts(ts[i + 1..]) by {
              assert ts[i..][1..] == ts[i + 1..];
            }
            PutText(ts[i]);
          }
          assert ts[|ts|..] == [] && bytes == start + EncodeTexts(ts);
      }
    }

    method PutRow(row: Row)
      modifies this
      ensures bytes == old(bytes) + EncodeRow(row)
    {
      hide EncodeField;
      for i := 0 to |row|
        invariant bytes + EncodeRow(row[i..]) == old(bytes) + EncodeRow(row)
      {
        assert bytes + EncodeRow(row[i..]) == (bytes + EncodeField(row[i])) + EncodeRow(row[i + 1..]) by {
          assert row[i..][1..] == row[i + 1..];
        }
        PutField(row[i]);
      }
      assert row[|row|..] == [];
    }

    /** The number of rows, then the rows in ascending order of id. */
    method PutTable(t: Table)
      modifies this
      ensures bytes == old(bytes) + EncodeTable(t)
    {
      hide LittleEndian, EncodeRow, RowsOf, SortedKeys, ListsKeys;
      PutUnsigned(|t|, 4);
      ghost var start := bytes;
      var ks := SortKeys(t.Keys);
      ghost var rows := RowsOf(t);
      RowCount(t);
      for i := 0 to |ks|
        invariant bytes + EncodeRows(rows[i..]) == start + EncodeRows(rows)
      {
        RowAt(t, i);
        assert bytes + EncodeRows(rows[i..]) == (bytes + EncodeRow(rows[i])) + EncodeRows(rows[i + 1..]) by {
          assert rows[i..][1..] == rows[i + 1..];
        }
        PutRow(t[ks[i]]);
      }
      assert rows[|ks|..] == [] && bytes == start + EncodeRows(rows);
    }
  }

  lemma RowCount(t: Table)
    ensures |SortedKeys(t.Keys)| == |RowsOf(t)|
  {
  }

  lemma RowAt(t: Table, i: nat)
    requires i < |RowsOf(t)|
    ensures |SortedKeys(t.Keys)| == |RowsOf(t)| && SortedKeys(t.Keys)[i] in t
    ensures RowsOf(t)[i] == t[SortedKeys(t.Keys)[i]]
  {
    assert SortedKeys(t.Keys)[i] in SortedKeys(t.Keys);
  }

  /** The bytes of the state file depend only on the state, not on any order of visiting its tables. */
  method PersistBytes(s: State) returns (file: seq<Byte>)
    requires WellFiled(s)
    ensures file == Persist(s)
  {
    hide WellFiled, EncodeRow, EncodeTable, TablesOf, PlanTable, Mapped, LittleEndian, ChecksumField, HeaderRow;
    var body := new Writer();
    body.PutRow(HeaderRow(s));
    var ts := TablesOf(s);
    ghost var start := body.bytes;
    for i := 0 to |ts|
      invariant body.bytes + EncodeTables(ts[i..]) == start + EncodeTables(ts)
    {
      assert body.bytes + EncodeTables(ts[i..]) == (body.bytes + EncodeTable(ts[i])) + EncodeTables(ts[i + 1..]) by {
        assert ts[i..][1..] == ts[i + 1..];
      }
      body.PutTable(ts[i]);
    }
    assert ts[|ts|..] == [] && body.bytes == start + EncodeTables(ts);
    body.PutTable(PlanTable(s));
    assert body.bytes == Body(s);
    var out := new Writer();
    out.bytes := FILE_MAGIC;
    out.PutUnsigned(FILE_VERSION, 4);
    out.PutUnsigned(|body.bytes|, 8);
    out.bytes := out.bytes + body.bytes;
    ghost var content := out.bytes;
    var crc := TableChecksum(out.bytes);
    out.PutUnsigned(NumberOf(crc), 4);
    file := out.bytes;
    SealedBy(content, crc);
  }

  lemma SealedBy(content: seq<Byte>, crc: Word)
    requires crc == Checksum(content)
    ensures Sealed(content) == content + LittleEndian(NumberOf(crc), 4)
  {
  }

  // ---------------------------------------------------------------------
  // Reading
  // ---------------------------------------------------------------------

  /** What is parsed in all, once `done` has been parsed and p is what the rest gives. */
  function Joined<T>(done: seq<T>, p: Parsed<seq<T>>): Parsed<seq<T>> {
    if p.Malformed? then Malformed else Parsed(done + p.value, p.rest)
  }

  lemma JoinedToNothing<T>(p: Parsed<seq<T>>)
    ensures Joined([], p) == p
  {
    if p.Parsed? { assert [] + p.value == p.value; }
  }

  lemma JoinedAll<T>(done: seq<T>, rest: seq<Byte>)
    ensures Joined(done, Parsed([], rest)) == Parsed(done, rest)
  {
    assert done + [] == done;
  }

  lemma JoinedNext<T>(done: seq<T>, x: T, p: Parsed<seq<T>>)
    ensures Joined(done, Joined([x], p)) == Joined(done + [x], p)
  {
    if p.Parsed? { assert done + ([x] + p.value) == (done + [x]) + p.value; }
  }

  class Reader {
    const data: seq<Byte>
    var off: nat
    var fail: bool

    ghost predicate Valid() reads this { off <= |data| }
    ghost function Rest(): seq<Byte> reads this requires Valid() { data[off..] }

    /** What a read promises: the parsed value with the cursor past it, or nothing. */
    ghost predicate Reads<T>(p: Parsed<T>, v: Option<T>) reads this {
      Valid() && (p.Malformed? <==> v.None?) && (v.Some? ==> p == Parsed(v.value, Rest()))
    }

    constructor (bytes: seq<Byte>)
      ensures data == bytes && Valid() && Rest() == bytes && !fail
    {
      data, off, fail := bytes, 0, false;
    }

    method GetUnsigned(n: nat) returns (v: Option<nat>)
      requires Valid()
      modifies this
      ensures Reads(ParseUnsigned(old(Rest()), n), v)
      ensures fail == (old(fail) || v.None?)
    {
      if off + n > |data| {
        fail := true;
        return None;
      }
      assert data[off..][..n] == data[off..off + n] && data[off..][n..] == data[off + n..];
      v := Some(Unsigned(data[off..off + n]));
      off := off + n;
    }

    method GetFlag() returns (v: Option<bool>)
      requires Valid()
      modifies this
      ensures
        var p := ParseUnsigned(old(Rest()), 4);
        && Valid() && (v.None? <==> p.Malformed? || p.value > 1)
        && (v.Some? ==> v.value == (p.value == 1) && Rest() == p.rest)
      ensures fail == (old(fail) || v.None?)
    {
      var u := GetUnsigned(4);
      if u.None? { return None; }
      if u.value > 1 {
        fail := true;
        return None;
      }
      v := Some(u.value == 1);
    }

    method GetText() returns (t: Option<Text>)
      requires Valid()
      modifies this
      ensures Reads(ParseText(old(Rest())), t)
      ensures fail == (old(fail) || t.None?)
    {
      var len := GetUnsigned(4);
      if len.None? { return None; }
      if len.value > MAX_TEXT {
        fail := true;
        return None;
      }
      if off + len.value > |data| {
        fail := true;
        return None;
      }
      assert data[off..][..len.value] == data[off..off + len.value] &&
             data[off..][len.value..] == data[off + len.value..];
      t := Some(data[off..off + len.value]);
      off := off + len.value;
    }

    method GetTexts(n: nat) returns (ts: Option<seq<Text>>)
      requires Valid()
      modifies this
      ensures Reads(ParseTexts(old(Rest()), n), ts)
    {
      hide ParseText;
      var done: seq<Text> := [];
      ghost var start := Rest();
      JoinedToNothing(ParseTexts(start, n));
      for i := 0 to n
        invariant Valid() && ParseTexts(start, n) == Joined(done, ParseTexts(Rest(), n - i))
      {
        var t := GetText();
        if t.None? { return None; }
        JoinedNext(done, t.value, ParseTexts(Rest(), n - i - 1));
        done := done + [t.value];
      }
      JoinedAll(done, Rest());
      ts := Some(done);
    }

    method GetField(kind: Kind) returns (f: Option<Field>)
      requires Valid()
      modifies this
      ensures Reads(ParseField(kind, old(Rest())), f)
    {
      hide ParseUnsigned, ParseText, ParseTexts;
      match kind {
        case NumKind =>
          var v := GetUnsigned(8);
          if v.None? { return None; }
          f := Some(Num(v.value));
        case CountKind =>
          var v := GetUnsigned(4);
          if v.None? { return None; }
          f := Some(Count(v.value));
        case FlagKind =>
          var v := GetFlag();
          if v.None? { return None; }
          f := Some(Flag(v.value));
        case TagKind(values) =>
          var v := GetUnsigned(4);
          if v.None? || v.value >= values { return None; }
          f := Some(Tag(v.value));
        case StrKind =>
          var t := GetText();
          if t.None? { return None; }
          f := Some(Str(t.value));
        case StrsKind =>
          var n := GetUnsigned(4);
          if n.None? || n.value > MAX_TEXTS { return None; }
          var ts := GetTexts(n.value);
          if ts.None? { return None; }
          f := Some(Strs(ts.value));
      }
    }

    method GetRow(schema: Schema) returns (row: Option<Row>)
      requires Valid()
      modifies this
      ensures Reads(ParseRow(schema, old(Rest())), row)
    {
      hide ParseField;
      var done: Row := [];
      ghost var start := Rest();
      assert schema[0..] == schema;
      JoinedToNothing(ParseRow(schema, start));
      for i := 0 to |schema|
        invariant Valid() && ParseRow(schema, start) == Joined(done, ParseRow(schema[i..], Rest()))
      {
        assert schema[i..][1..] == schema[i + 1..];
        var f := GetField(schema[i]);
        if f.None? { return None; }
        JoinedNext(done, f.value, ParseRow(schema[i + 1..], Rest()));
        done := done + [f.value];
      }
      assert schema[|schema|..] == [];
      JoinedAll(done, Rest());
      row := Some(done);
    }

    /** Rows filed as they are read, a later one over an earlier one of the same id. */
    method GetTable(schema: Schema) returns (t: Option<Table>)
      requires Valid()
      modifies this
      ensures Reads(ParseTable(schema, old(Rest())), t)
    {
      hide ParseUnsigned, ParseRow, Filed;
      var n := GetUnsigned(4);
      if n.None? || n.value > MAX_ROWS { return None; }
      var table: Table := map[];
      ghost var rows: seq<Row> := [];
      ghost var start := Rest();
      NothingFiled();
      JoinedToNothing(ParseRows(schema, n.value, start));
      for i := 0 to n.value
        invariant Valid() && ParseRows(schema, n.value, start) == Joined(rows, ParseRows(schema, n.value - i, Rest()))
        invariant table == Filed(rows)
      {
        var row := GetRow(schema);
        if row.None? { return None; }
        JoinedNext(rows, row.value, ParseRows(schema, n.value - i - 1, Rest()));
        FiledNext(rows, row.value);
        table := table[RowId(row.value) := row.value];
        rows := rows + [row.value];
      }
      JoinedAll(rows, Rest());
      t := Some(table);
    }

    /** The bound of this loop is overwritten by the copy count of each plan. */
    method GetPlans() returns (t: Option<Table>)
      requires Valid()
      modifies this
      ensures Reads(ParsePlanTable(old(Rest())), t)
    {
      hide ParseUnsigned, ParseRow, Filed, CopyCount, PLAN_SCHEMA;
      var n := GetUnsigned(4);
      if n.None? || n.value > MAX_ROWS { return None; }
      var cnt: nat := n.value;
      var table: Table := map[];
      ghost var rows: seq<Row> := [];
      ghost var start := Rest();
      NothingFiled();
      PlanSchemaIsNotEmpty();
      JoinedToNothing(ParsePlanRows(0, n.value, start));
      var i: nat := 0;
      while i < cnt
        invariant Valid() && ParsePlanRows(0, n.value, start) == Joined(rows, ParsePlanRows(i, cnt, Rest()))
        invariant table == Filed(rows)
        decreases |data| - off
      {
        var row := GetRow(PLAN_SCHEMA);
        if row.None? { return None; }
        JoinedNext(rows, row.value, ParsePlanRows(i + 1, CopyCount(row.value), Rest()));
        FiledNext(rows, row.value);
        cnt := CopyCount(row.value);
        table := table[RowId(row.value) := row.value];
        rows := rows + [row.value];
        i := i + 1;
      }
      JoinedAll(rows, Rest());
      t := Some(table);
    }
  }

  lemma NothingFiled()
    ensures Filed([]) == map[]
  {
  }

  lemma FiledNext(rows: seq<Row>, row: Row)
    ensures Filed(rows + [row]) == Filed(rows)[RowId(row) := row]
  {
    assert (rows + [row])[..|rows|] == rows;
  }

  method RecoverBytes(file: seq<Byte>) returns (r: Result<State>)
    ensures r == Recover(file)
  {
    hide ParseRow, ParseTables, ParsePlanTable, Restored, Unsigned;
    if |file| < 24 { return Err(PersistenceError); }
    if file[..8] != FILE_MAGIC { return Err(PersistenceError); }
    var version := Unsigned(file[8..12]);
    if version > FILE_VERSION { return Err(UnsupportedError); }
    if version < FILE_VERSION { return Err(PersistenceError); }
    var length := Unsigned(file[12..20]);
    if length > MAX_BODY { return Err(PersistenceError); }
    var expected := 20 + length + 4;
    if |file| != expected { return Err(PersistenceError); }
    var stored := Unsigned(file[20 + length..]);
    var crc := TableChecksum(file[..20 + length]);
    if stored != NumberOf(crc) { return Err(PersistenceError); }
    r := ReadBody(file[20..20 + length]);
  }

  method ReadBody(body: seq<Byte>) returns (r: Result<State>)
    ensures r == RecoverBody(body)
  {
    hide ParseRow, ParseTable, ParseTables, ParsePlanTable, Restored, SCHEMAS, HEADER_SCHEMA;
    var reader := new Reader(body);
    var header := reader.GetRow(HEADER_SCHEMA);
    if header.None? { return Err(PersistenceError); }
    var ts: seq<Table> := [];
    ghost var start := reader.Rest();
    AllSectionsAhead(start);
    for i := 0 to |SCHEMAS|
      invariant reader.Valid() && |ts| == i
      invariant ParseTables(SCHEMAS, start) == Joined(ts, ParseTables(SCHEMAS[i..], reader.Rest()))
    {
      SectionTurn(i, reader.Rest());
      var t := reader.GetTable(SCHEMAS[i]);
      if t.None? { return Err(PersistenceError); }
      JoinedNext(ts, t.value, ParseTables(SCHEMAS[i + 1..], reader.Rest()));
      ts := ts + [t.value];
    }
    NoSectionAhead(reader.Rest());
    JoinedAll(ts, reader.Rest());
    EightSections();
    var plans := reader.GetPlans();
    if plans.None? { return Err(PersistenceError); }
    r := Ok(Restored(header.value, ts, plans.value));
  }

  lemma AllSectionsAhead(bytes: seq<Byte>)
    ensures ParseTables(SCHEMAS, bytes) == Joined([], ParseTables(SCHEMAS[0..], bytes))
  {
    hide ParseTables, SCHEMAS;
    assert SCHEMAS[0..] == SCHEMAS;
    JoinedToNothing(ParseTables(SCHEMAS, bytes));
  }

  lemma SectionTurn(i: nat, bytes: seq<Byte>)
    requires i < |SCHEMAS|
    ensures
      var t := ParseTable(SCHEMAS[i], bytes);
      ParseTables(SCHEMAS[i..], bytes) ==
        if t.Malformed? then Malformed else Joined([t.value], ParseTables(SCHEMAS[i + 1..], t.rest))
  {
    hide ParseTable, SCHEMAS;
    assert SCHEMAS[i..][1..] == SCHEMAS[i + 1..];
  }

  lemma NoSectionAhead(bytes: seq<Byte>)
    ensures ParseTables(SCHEMAS[|SCHEMAS|..], bytes) == Parsed([], bytes)
  {
    hide ParseTable, SCHEMAS;
  }

  lemma EightSections()
    ensures |SCHEMAS| == 8
  {
  }
}
