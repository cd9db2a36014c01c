/** Records as lists of typed fields, and the little-endian encoding of fields, records and tables. */
module Fields {
  import opened Bits
  import opened Types

  datatype Field =
    | Num(value: nat)        // 64 bits
    | Count(value: nat)      // 32 bits
    | Flag(on: bool)         // 32 bits, 0 or 1
    | Tag(value: nat)        // 32 bits, an enumerator
    | Str(text: Text)        // 32-bit length, then the bytes
    | Strs(texts: seq<Text>) // 32-bit count, then the strings

  datatype Kind = NumKind | CountKind | FlagKind | TagKind(values: nat) | StrKind | StrsKind

  type Row = seq<Field>
  type Schema = seq<Kind>

  const MAX_TEXT: nat := 0x10_0000
  const MAX_TEXTS: nat := 4096
  const MAX_ROWS: nat := 0x10_0000

  // ---------------------------------------------------------------------
  // Encoding
  // ---------------------------------------------------------------------

  function EncodeText(t: Text): seq<Byte> { LittleEndian(|t|, 4) + t }

  function EncodeTexts(ts: seq<Text>): seq<Byte> {
    if ts == [] then [] else EncodeText(ts[0]) + EncodeTexts(ts[1..])
  }

  function EncodeField(f: Field): seq<Byte> {
    match f
    case Num(v) => LittleEndian(v, 8)
    case Count(v) => LittleEndian(v, 4)
    case Flag(b) => LittleEndian(if b then 1 else 0, 4)
    case Tag(v) => LittleEndian(v, 4)
    case Str(t) => EncodeText(t)
    case Strs(ts) => LittleEndian(|ts|, 4) + EncodeTexts(ts)
  }

  function EncodeRow(row: Row): seq<Byte> {
    if row == [] then [] else EncodeField(row[0]) + EncodeRow(row[1..])
  }

  function EncodeRows(rows: seq<Row>): seq<Byte> {
    if rows == [] then [] else EncodeRow(rows[0]) + EncodeRows(rows[1..])
  }

  // ---------------------------------------------------------------------
  // Parsing
  // ---------------------------------------------------------------------

  datatype Parsed<+T> = Parsed(value: T, rest: seq<Byte>) | Malformed

  function ParseUnsigned(bytes: seq<Byte>, n: nat): (p: Parsed<nat>)
    ensures p.Parsed? <==> |bytes| >= n
    ensures p.Parsed? ==> |p.rest| == |bytes| - n
  {
    if |bytes| < n then Malformed else Parsed(Unsigned(bytes[..n]), bytes[n..])
  }

  function ParseText(bytes: seq<Byte>): (p: Parsed<Text>)
    ensures p.Parsed? ==> |p.rest| < |bytes| && |p.value| <= MAX_TEXT
  {
    var len := ParseUnsigned(bytes, 4);
    if len.Malformed? || len.value > MAX_TEXT || len.value > |len.rest| then Malformed
    else Parsed(len.rest[..len.value], len.rest[len.value..])
  }

  function ParseTexts(bytes: seq<Byte>, n: nat): (p: Parsed<seq<Text>>)
    ensures p.Parsed? ==> |p.value| == n && |p.rest| <= |bytes|
  {
    if n == 0 then Parsed([], bytes)
    else
      var t := ParseText(bytes);
      if t.Malformed? then Malformed
      else
        var ts := ParseTexts(t.rest, n - 1);
        if ts.Malformed? then Malformed else Parsed([t.value] + ts.value, ts.rest)
  }

  function ParseField(kind: Kind, bytes: seq<Byte>): (p: Parsed<Field>)
    ensures p.Parsed? ==> |p.rest| < |bytes|
  {
    match kind
    case NumKind => var v := ParseUnsigned(bytes, 8); if v.Malformed? then Malformed else Parsed(Num(v.value), v.rest)
    case CountKind =>
      var v := ParseUnsigned(bytes, 4);
      if v.Malformed? then Malformed else Parsed(Count(v.value), v.rest)
    case FlagKind =>
      var v := ParseUnsigned(bytes, 4);
      if v.Malformed? || v.value > 1 then Malformed else Parsed(Flag(v.value == 1), v.rest)
    case TagKind(values) =>
      var v := ParseUnsigned(bytes, 4);
      if v.Malformed? || v.value >= values then Malformed else Parsed(Tag(v.value), v.rest)
    case StrKind => var t := ParseText(bytes); if t.Malformed? then Malformed else Parsed(Str(t.value), t.rest)
    case StrsKind =>
      var n := ParseUnsigned(bytes, 4);
      if n.Malformed? || n.value > MAX_TEXTS then Malformed
      else
        var ts := ParseTexts(n.rest, n.value);
        if ts.Malformed? then Malformed else Parsed(Strs(ts.value), ts.rest)
  }

  function ParseRow(schema: Schema, bytes: seq<Byte>): (p: Parsed<Row>)
    ensures p.Parsed? ==> |p.value| == |schema| && |p.rest| <= |bytes|
    ensures p.Parsed? && schema != [] ==> |p.rest| < |bytes|
  {
    if schema == [] then Parsed([], bytes)
    else
      var f := ParseField(schema[0], bytes);
      if f.Malformed? then Malformed
      else
        var fs := ParseRow(schema[1..], f.rest);
        if fs.Malformed? then Malformed else Parsed([f.value] + fs.value, fs.rest)
  }

  function ParseRows(schema: Schema, n: nat, bytes: seq<Byte>): (p: Parsed<seq<Row>>)
    ensures p.Parsed? ==> |p.value| == n && |p.rest| <= |bytes|
  {
    if n == 0 then Parsed([], bytes)
    else
      var row := ParseRow(schema, bytes);
      if row.Malformed? then Malformed
      else
        var rows := ParseRows(schema, n - 1, row.rest);
        if rows.Malformed? then Malformed else Parsed([row.value] + rows.value, rows.rest)
  }

  // ---------------------------------------------------------------------
  // Parsing what was encoded
  // ---------------------------------------------------------------------

  predicate TextFits(t: Text) { |t| <= MAX_TEXT }

  predicate FieldFits(f: Field, kind: Kind) {
    match f
    case Num(v) => kind.NumKind? && v < 0x1_0000_0000_0000_0000
    case Count(v) => kind.CountKind? && v < 0x1_0000_0000
    case Flag(_) => kind.FlagKind?
    case Tag(v) => kind.TagKind? && v < kind.values <= 0x1_0000_0000
    case Str(t) => kind.StrKind? && TextFits(t)
    case Strs(ts) => kind.StrsKind? && |ts| <= MAX_TEXTS && forall i :: 0 <= i < |ts| ==> TextFits(ts[i])
  }

  /** The field is of its kind; only its size is in question. */
  predicate HasShape(f: Field, kind: Kind) {
    match f
    case Num(_) => kind.NumKind?
    case Count(_) => kind.CountKind?
    case Flag(_) => kind.FlagKind?
    case Tag(v) => kind.TagKind? && v < kind.values <= 0x1_0000_0000
    case Str(_) => kind.StrKind?
    case Strs(_) => kind.StrsKind?
  }

  /** Numbers fit their width and texts the limits of the reader. */
  predicate IsSized(f: Field) {
    match f
    case Num(v) => v < 0x1_0000_0000_0000_0000
    case Count(v) => v < 0x1_0000_0000
    case Str(t) => TextFits(t)
    case Strs(ts) => |ts| <= MAX_TEXTS && forall i :: 0 <= i < |ts| ==> TextFits(ts[i])
    case _ => true
  }

  predicate RowHasShape(row: Row, schema: Schema) {
    |row| == |schema| && forall i :: 0 <= i < |row| ==> HasShape(row[i], schema[i])
  }

  predicate RowIsSized(row: Row) { forall i :: 0 <= i < |row| ==> IsSized(row[i]) }

  lemma SizedRowFits(row: Row, schema: Schema)
    requires RowHasShape(row, schema) && RowIsSized(row)
    ensures RowFits(row, schema)
  {
    forall i | 0 <= i < |row| ensures FieldFits(row[i], schema[i]) {
      assert HasShape(row[i], schema[i]) && IsSized(row[i]);
    }
  }

  predicate RowFits(row: Row, schema: Schema) {
    |row| == |schema| && forall i :: 0 <= i < |row| ==> FieldFits(row[i], schema[i])
  }

  lemma Pow2OfTwo()
    ensures Pow2(2) == 4
  {
  }

  lemma PowersOfTwo()
    ensures Pow2(32) == 0x1_0000_0000 && Pow2(64) == 0x1_0000_0000_0000_0000
  {
    hide Pow2;
    Pow2OfTwo();
    Pow2Adds(2, 2);
    Pow2Adds(4, 4);
    Pow2Adds(8, 8);
    Pow2Adds(16, 16);
    Pow2Adds(32, 32);
  }

  lemma UnsignedReadsBack(v: nat, n: nat, rest: seq<Byte>)
    requires v < Pow2(8 * n)
    ensures ParseUnsigned(LittleEndian(v, n) + rest, n) == Parsed(v, rest)
  {
    UnsignedOfLittleEndian(v, n);
    var bytes := LittleEndian(v, n) + rest;
    assert bytes[..n] == LittleEndian(v, n) && bytes[n..] == rest;
  }

  lemma TextReadsBack(t: Text, rest: seq<Byte>)
    requires TextFits(t)
    ensures ParseText(EncodeText(t) + rest) == Parsed(t, rest)
  {
    hide Pow2, LittleEndian, Unsigned;
    PowersOfTwo();
    assert EncodeText(t) + rest == LittleEndian(|t|, 4) + (t + rest);
    UnsignedReadsBack(|t|, 4, t + rest);
    assert (t + rest)[..|t|] == t && (t + rest)[|t|..] == rest;
  }

  lemma {:induction false} TextsReadBack(ts: seq<Text>, rest: seq<Byte>)
    requires forall i :: 0 <= i < |ts| ==> TextFits(ts[i])
    ensures ParseTexts(EncodeTexts(ts) + rest, |ts|) == Parsed(ts, rest)
  {
    if ts == [] {
      assert EncodeTexts(ts) + rest == rest;
    } else {
      assert EncodeTexts(ts) + rest == EncodeText(ts[0]) + (EncodeTexts(ts[1..]) + rest);
      TextReadsBack(ts[0], EncodeTexts(ts[1..]) + rest);
      TextsReadBack(ts[1..], rest);
      assert [ts[0]] + ts[1..] == ts;
    }
  }

  lemma FieldReadsBack(f: Field, kind: Kind, rest: seq<Byte>)
    requires FieldFits(f, kind)
    ensures ParseField(kind, EncodeField(f) + rest) == Parsed(f, rest)
  {
    hide Pow2, LittleEndian, Unsigned, ParseUnsigned, ParseText, ParseTexts, EncodeText, EncodeTexts;
    PowersOfTwo();
    match f
    case Num(v) => UnsignedReadsBack(v, 8, rest);
    case Count(v) => UnsignedReadsBack(v, 4, rest);
    case Flag(b) => UnsignedReadsBack(if b then 1 else 0, 4, rest);
    case Tag(v) => UnsignedReadsBack(v, 4, rest);
    case Str(t) => TextReadsBack(t, rest);
    case Strs(ts) =>
      assert EncodeField(f) + rest == LittleEndian(|ts|, 4) + (EncodeTexts(ts) + rest);
      UnsignedReadsBack(|ts|, 4, EncodeTexts(ts) + rest);
      TextsReadBack(ts, rest);
  }

  lemma {:induction false} RowReadsBack(row: Row, schema: Schema, rest: seq<Byte>)
    requires RowFits(row, schema)
    ensures ParseRow(schema, EncodeRow(row) + rest) == Parsed(row, rest)
  {
    hide ParseField, EncodeField, FieldFits;
    if row == [] {
      assert EncodeRow(row) + rest == rest;
    } else {
      assert EncodeRow(row) + rest == EncodeField(row[0]) + (EncodeRow(row[1..]) + rest);
      FieldReadsBack(row[0], schema[0], EncodeRow(row[1..]) + rest);
      RowReadsBack(row[1..], schema[1..], rest);
      assert [row[0]] + row[1..] == row;
    }
  }

  lemma {:induction false} RowsReadBack(rows: seq<Row>, schema: Schema, rest: seq<Byte>)
    requires forall i :: 0 <= i < |rows| ==> RowFits(rows[i], schema)
    ensures ParseRows(schema, |rows|, EncodeRows(rows) + rest) == Parsed(rows, rest)
  {
    hide ParseRow, EncodeRow, RowFits;
    if rows == [] {
      assert EncodeRows(rows) + rest == rest;
    } else {
      assert EncodeRows(rows) + rest == EncodeRow(rows[0]) + (EncodeRows(rows[1..]) + rest);
      RowReadsBack(rows[0], schema, EncodeRows(rows[1..]) + rest);
      RowsReadBack(rows[1..], schema, rest);
      assert [rows[0]] + rows[1..] == rows;
    }
  }
}
