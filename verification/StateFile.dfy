/** The coordinator's state file: what is written, what recovery accepts, and what it restores. */
module StateFile {
  import opened Bits
  import opened Crc32
  import opened Types
  import opened Fields
  import opened Tables
  import opened Records
  import opened CoordinatorModel

  const FILE_MAGIC: seq<Byte> := [0x47, 0x44, 0x46, 0x53, 0x54, 0x41, 0x54, 0x45]  // "GDFSTATE"
  const FILE_VERSION: nat := 1
  const MAX_BODY: nat := 0x1000_0000
  const FILE_HEADER: nat := 20

  const SCHEMAS: seq<Schema> :=
    [BUFFER_SCHEMA, DEVICE_SCHEMA, ENDPOINT_SCHEMA, NIC_SCHEMA, STORAGE_SCHEMA, PROVIDER_SCHEMA, CAPABILITY_SCHEMA,
     REGISTRATION_SCHEMA]

  // ---------------------------------------------------------------------
  // Writing
  // ---------------------------------------------------------------------

  /** Records are filed under their ids; capabilities at least have different ones. */
  ghost predicate WellFiled(s: State) {
    && (forall k :: k in s.buffers ==> s.buffers[k].id == k)
    && (forall k :: k in s.devices ==> s.devices[k].id == k)
    && (forall k :: k in s.endpoints ==> s.endpoints[k].id == k)
    && (forall k :: k in s.nics ==> s.nics[k].id == k)
    && (forall k :: k in s.storage ==> s.storage[k].id == k)
    && (forall k :: k in s.providers ==> s.providers[k].id == k)
    && DistinctIds(s.capabilities)
    && (forall k :: k in s.registrations ==> s.registrations[k].id == k)
    && (forall k :: k in s.plans ==> s.plans[k].id == k)
  }

  ghost predicate DistinctIds(cs: map<nat, Capability>) {
    forall k, j :: k in cs && j in cs && k != j ==> cs[k].id != cs[j].id
  }

  function Rekeyed(cs: map<nat, Capability>): map<nat, Capability>
    requires DistinctIds(cs)
  {
    map k | k in cs :: cs[k].id := cs[k]
  }

  function HeaderRow(s: State): Row { [Num(s.epoch), Num(s.nextId), Num(s.freshness)] }

  /** A table with f applied to every record. */
  function Mapped<A, B>(f: A -> B, m: map<nat, A>): map<nat, B> { map k | k in m :: f(m[k]) }

  function TablesOf(s: State): (ts: seq<Table>)
    requires WellFiled(s)
    ensures |ts| == 8
  {
    [Mapped(BufferRow, s.buffers), Mapped(DeviceRow, s.devices), Mapped(EndpointRow, s.endpoints),
     Mapped(NicRow, s.nics),
     Mapped(StorageRow, s.storage), Mapped(ProviderRow, s.providers), Mapped(CapabilityRow, Rekeyed(s.capabilities)),
     Mapped(RegistrationRow, s.registrations)]
  }

  function PlanTable(s: State): Table { Mapped(PlanRow, s.plans) }

  ghost function Body(s: State): seq<Byte>
    requires WellFiled(s)
  {
    EncodeRow(HeaderRow(s)) + EncodeTables(TablesOf(s)) + EncodeTable(PlanTable(s))
  }

  function Framed(body: seq<Byte>): seq<Byte> {
    Sealed(FILE_MAGIC + LittleEndian(FILE_VERSION, 4) + LittleEndian(|body|, 8) + body)
  }

  ghost function Persist(s: State): seq<Byte>
    requires WellFiled(s)
  {
    Framed(Body(s))
  }

  // ---------------------------------------------------------------------
  // Reading
  // ---------------------------------------------------------------------

  /** The plan loop as it runs: after each row its bound is that row's copy count. */
  function ParsePlanRows(i: nat, bound: nat, bytes: seq<Byte>): (p: Parsed<seq<Row>>)
    decreases |bytes|
  {
    if i >= bound then Parsed([], bytes)
    else
      var row := ParseRow(PLAN_SCHEMA, bytes);
      if row.Malformed? then Malformed
      else
        var rows := ParsePlanRows(i + 1, CopyCount(row.value), row.rest);
        if rows.Malformed? then Malformed else Parsed([row.value] + rows.value, rows.rest)
  }

  function ParsePlanTable(bytes: seq<Byte>): Parsed<Table> {
    var n := ParseUnsigned(bytes, 4);
    if n.Malformed? || n.value > MAX_ROWS then Malformed
    else
      var rows := ParsePlanRows(0, n.value, n.rest);
      if rows.Malformed? then Malformed else Parsed(Filed(rows.value), rows.rest)
  }

  function Restored(header: Row, ts: seq<Table>, plans: Table): State
    requires |ts| == 8
  {
    InitialState(NumAt(header, 0)).(
      nextId := NumAt(header, 1), freshness := NumAt(header, 2),
      buffers := Mapped(BufferOf, ts[0]),
      devices := Mapped(DeviceOf, ts[1]),
      endpoints := Mapped(EndpointOf, ts[2]),
      nics := Mapped(NicOf, ts[3]),
      storage := Mapped(StorageOf, ts[4]),
      providers := Mapped(ProviderOf, ts[5]),
      capabilities := Mapped(CapabilityOf, ts[6]),
      registrations := Mapped(RegistrationOf, ts[7]),
      plans := Mapped(PlanOf, plans))
  }

  /** Nothing requires that the body be used up. */
  function RecoverBody(body: seq<Byte>): Result<State> {
    var header := ParseRow(HEADER_SCHEMA, body);
    if header.Malformed? then Err(PersistenceError)
    else
      var ts := ParseTables(SCHEMAS, header.rest);
      if ts.Malformed? then Err(PersistenceError)
      else
        var plans := ParsePlanTable(ts.rest);
        if plans.Malformed? then Err(PersistenceError)
        else Ok(Restored(header.value, ts.value, plans.value))
  }

  function Recover(file: seq<Byte>): Result<State> {
    if |file| < FILE_HEADER + 4 then Err(PersistenceError)
    else if file[..8] != FILE_MAGIC then Err(PersistenceError)
    else if Unsigned(file[8..12]) > FILE_VERSION then Err(UnsupportedError)
    else if Unsigned(file[8..12]) < FILE_VERSION then Err(PersistenceError)
    else if Unsigned(file[12..20]) > MAX_BODY then Err(PersistenceError)
    else if |file| != FILE_HEADER + Unsigned(file[12..20]) + 4 then Err(PersistenceError)
    else if !Intact(file) then Err(PersistenceError)
    else RecoverBody(file[FILE_HEADER..|file| - 4])
  }

  // ---------------------------------------------------------------------
  // What survives of a state
  // ---------------------------------------------------------------------

  /** Inventory and history survive; authority, liveness, handles and transfers do not. */
  function Durable(s: State): State
    requires WellFiled(s)
  {
    InitialState(s.epoch).(
      nextId := s.nextId, freshness := s.freshness,
      buffers := Mapped(DurableBuffer, s.buffers),
      devices := Mapped(DurableDevice, s.devices),
      endpoints := Mapped(DurableEndpoint, s.endpoints),
      nics := Mapped(DurableNic, s.nics),
      storage := Mapped(DurableStorage, s.storage),
      providers := s.providers,
      capabilities := Rekeyed(s.capabilities),
      registrations := Mapped(DurableRegistration, s.registrations),
      plans := Mapped(DurablePlan, s.plans))
  }

  ghost predicate TableIsSized(t: Table) {
    |t| <= MAX_ROWS && forall k :: k in t ==> RowIsSized(t[k])
  }

  /** Within the limits of the format: 64-bit numbers, texts of at most 1 MiB, at most 4096 required
      capabilities, at most 2^20 rows in a table, and a body of at most 256 MiB. */
  ghost predicate WithinLimits(s: State)
    requires WellFiled(s)
  {
    && RowIsSized(HeaderRow(s))
    && (forall i :: 0 <= i < 8 ==> TableIsSized(TablesOf(s)[i]))
    && TableIsSized(PlanTable(s))
    && |Body(s)| <= MAX_BODY
  }

  // ---------------------------------------------------------------------
  // The frame
  // ---------------------------------------------------------------------

  lemma FrameReadsBack(body: seq<Byte>)
    requires |body| <= MAX_BODY
    ensures Recover(Framed(body)) == RecoverBody(body)
  {
    hide Pow2, LittleEndian, Unsigned, RecoverBody, Intact, ChecksumField;
    PowersOfTwo();
    var file := Framed(body);
    UnsignedOfLittleEndian(FILE_VERSION, 4);
    UnsignedOfLittleEndian(|body|, 8);
    IntactIffSealed(file);
    assert file[..8] == FILE_MAGIC;
    assert file[8..12] == LittleEndian(FILE_VERSION, 4);
    assert file[12..20] == LittleEndian(|body|, 8);
    assert file[20..|file| - 4] == body;
  }

  lemma AcceptedIsIntact(file: seq<Byte>)
    requires Recover(file).Ok?
    ensures Intact(file) && |file| >= 24
  {
    hide RecoverBody, Intact;
  }

  /** A file that recovery accepts, changed within any four consecutive bytes, is refused. */
  lemma DamagedFileIsRefused(file: seq<Byte>, damaged: seq<Byte>, i: nat)
    requires Recover(file).Ok? && BurstAt(file, damaged, i)
    ensures Recover(damaged).Err?
  {
    hide Recover, Intact, BurstAt;
    AcceptedIsIntact(file);
    BurstBreaksSeal(file, damaged, i);
    if Recover(damaged).Ok? { AcceptedIsIntact(damaged); }
  }
}
