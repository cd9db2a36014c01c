/** Recovering a persisted state: exactly when it works, and what any recovered state lacks. */
module Recovery {
  import opened Bits
  import opened Types
  import opened Fields
  import opened Tables
  import opened Records
  import opened CoordinatorModel
  import opened StateFile

  // ---------------------------------------------------------------------
  // Table by table
  // ---------------------------------------------------------------------

  lemma SizedTableFits(t: Table, schema: Schema)
    requires TableIsSized(t) && forall k :: k in t ==> RowHasShape(t[k], schema)
    ensures TableFits(t, schema)
  {
    hide RowIsSized, RowHasShape, RowFits;
    forall k | k in t ensures RowFits(t[k], schema) { SizedRowFits(t[k], schema); }
  }

  /** A table of records that read back one by one reads back as a whole. */
  lemma MappedReadsBack<A>(m: map<nat, A>, row: A -> Row, back: Row -> A, durable: A -> A, schema: Schema)
    requires TableIsSized(Mapped(row, m))
    requires forall k :: k in m ==>
      RowId(row(m[k])) == k && RowHasShape(row(m[k]), schema) && back(row(m[k])) == durable(m[k])
    ensures Keyed(Mapped(row, m)) && TableFits(Mapped(row, m), schema)
    ensures Mapped(back, Mapped(row, m)) == Mapped(durable, m)
  {
    hide RowHasShape, TableFits, TableIsSized, RowId;
    SizedTableFits(Mapped(row, m), schema);
  }

  lemma BuffersReadBack(m: map<nat, Buffer>)
    requires TableIsSized(Mapped(BufferRow, m)) && forall k :: k in m ==> m[k].id == k
    ensures Keyed(Mapped(BufferRow, m)) && TableFits(Mapped(BufferRow, m), BUFFER_SCHEMA)
    ensures Mapped(BufferOf, Mapped(BufferRow, m)) == Mapped(DurableBuffer, m)
  {
    hide BufferOf, DurableBuffer, RowHasShape, TableFits, TableIsSized, Keyed, Mapped;
    forall k | k in m
      ensures RowId(BufferRow(m[k])) == k && RowHasShape(BufferRow(m[k]), BUFFER_SCHEMA)
      ensures BufferOf(BufferRow(m[k])) == DurableBuffer(m[k])
    {
      BufferHasShape(m[k]);
      BufferReadsBack(m[k]);
    }
    MappedReadsBack(m, BufferRow, BufferOf, DurableBuffer, BUFFER_SCHEMA);
  }

  lemma DevicesReadBack(m: map<nat, Device>)
    requires TableIsSized(Mapped(DeviceRow, m)) && forall k :: k in m ==> m[k].id == k
    ensures Keyed(Mapped(DeviceRow, m)) && TableFits(Mapped(DeviceRow, m), DEVICE_SCHEMA)
    ensures Mapped(DeviceOf, Mapped(DeviceRow, m)) == Mapped(DurableDevice, m)
  {
    hide DeviceOf, DurableDevice, RowHasShape, TableFits, TableIsSized, Keyed, Mapped;
    forall k | k in m
      ensures RowId(DeviceRow(m[k])) == k && RowHasShape(DeviceRow(m[k]), DEVICE_SCHEMA)
      ensures DeviceOf(DeviceRow(m[k])) == DurableDevice(m[k])
    {
      DeviceHasShape(m[k]);
      DeviceReadsBack(m[k]);
    }
    MappedReadsBack(m, DeviceRow, DeviceOf, DurableDevice, DEVICE_SCHEMA);
  }

  lemma EndpointsReadBack(m: map<nat, Endpoint>)
    requires TableIsSized(Mapped(EndpointRow, m)) && forall k :: k in m ==> m[k].id == k
    ensures Keyed(Mapped(EndpointRow, m)) && TableFits(Mapped(EndpointRow, m), ENDPOINT_SCHEMA)
    ensures Mapped(EndpointOf, Mapped(EndpointRow, m)) == Mapped(DurableEndpoint, m)
  {
    hide EndpointOf, DurableEndpoint, RowHasShape, TableFits, TableIsSized, Keyed, Mapped;
    forall k | k in m
      ensures RowId(EndpointRow(m[k])) == k && RowHasShape(EndpointRow(m[k]), ENDPOINT_SCHEMA)
      ensures EndpointOf(EndpointRow(m[k])) == DurableEndpoint(m[k])
    {
      EndpointHasShape(m[k]);
      EndpointReadsBack(m[k]);
    }
    MappedReadsBack(m, EndpointRow, EndpointOf, DurableEndpoint, ENDPOINT_SCHEMA);
  }

  lemma NicsReadBack(m: map<nat, Nic>)
    requires TableIsSized(Mapped(NicRow, m)) && forall k :: k in m ==> m[k].id == k
    ensures Keyed(Mapped(NicRow, m)) && TableFits(Mapped(NicRow, m), NIC_SCHEMA)
    ensures Mapped(NicOf, Mapped(NicRow, m)) == Mapped(DurableNic, m)
  {
    hide NicOf, DurableNic, RowHasShape, TableFits, TableIsSized, Keyed, Mapped;
    forall k | k in m
      ensures RowId(NicRow(m[k])) == k && RowHasShape(NicRow(m[k]), NIC_SCHEMA)
      ensures NicOf(NicRow(m[k])) == DurableNic(m[k])
    {
      NicHasShape(m[k]);
      NicReadsBack(m[k]);
    }
    MappedReadsBack(m, NicRow, NicOf, DurableNic, NIC_SCHEMA);
  }

  lemma StorageEndpointsReadBack(m: map<nat, StorageEndpoint>)
    requires TableIsSized(Mapped(StorageRow, m)) && forall k :: k in m ==> m[k].id == k
    ensures Keyed(Mapped(StorageRow, m)) && TableFits(Mapped(StorageRow, m), STORAGE_SCHEMA)
    ensures Mapped(StorageOf, Mapped(StorageRow, m)) == Mapped(DurableStorage, m)
  {
    hide StorageOf, DurableStorage, RowHasShape, TableFits, TableIsSized, Keyed, Mapped;
    forall k | k in m
      ensures RowId(StorageRow(m[k])) == k && RowHasShape(StorageRow(m[k]), STORAGE_SCHEMA)
      ensures StorageOf(StorageRow(m[k])) == DurableStorage(m[k])
    {
      StorageHasShape(m[k]);
      StorageReadsBack(m[k]);
    }
    MappedReadsBack(m, StorageRow, StorageOf, DurableStorage, STORAGE_SCHEMA);
  }

  lemma RegistrationsReadBack(m: map<nat, Registration>)
    requires TableIsSized(Mapped(RegistrationRow, m)) && forall k :: k in m ==> m[k].id == k
    ensures Keyed(Mapped(RegistrationRow, m)) && TableFits(Mapped(RegistrationRow, m), REGISTRATION_SCHEMA)
    ensures Mapped(RegistrationOf, Mapped(RegistrationRow, m)) == Mapped(DurableRegistration, m)
  {
    hide RegistrationOf, DurableRegistration, RowHasShape, TableFits, TableIsSized, Keyed, Mapped;
    forall k | k in m
      ensures RowId(RegistrationRow(m[k])) == k && RowHasShape(RegistrationRow(m[k]), REGISTRATION_SCHEMA)
      ensures RegistrationOf(RegistrationRow(m[k])) == DurableRegistration(m[k])
    {
      RegistrationHasShape(m[k]);
      RegistrationReadsBack(m[k]);
    }
    MappedReadsBack(m, RegistrationRow, RegistrationOf, DurableRegistration, REGISTRATION_SCHEMA);
  }

  lemma PlansReadBack(m: map<nat, Plan>)
    requires TableIsSized(Mapped(PlanRow, m)) && forall k :: k in m ==> m[k].id == k
    ensures Keyed(Mapped(PlanRow, m)) && TableFits(Mapped(PlanRow, m), PLAN_SCHEMA)
    ensures Mapped(PlanOf, Mapped(PlanRow, m)) == Mapped(DurablePlan, m)
  {
    hide PlanOf, DurablePlan, RowHasShape, TableFits, TableIsSized, Keyed, Mapped;
    forall k | k in m
      ensures RowId(PlanRow(m[k])) == k && RowHasShape(PlanRow(m[k]), PLAN_SCHEMA)
      ensures PlanOf(PlanRow(m[k])) == DurablePlan(m[k])
    {
      PlanHasShape(m[k]);
      PlanReadsBack(m[k]);
    }
    MappedReadsBack(m, PlanRow, PlanOf, DurablePlan, PLAN_SCHEMA);
  }

  lemma ProvidersReadBack(m: map<nat, Provider>)
    requires TableIsSized(Mapped(ProviderRow, m)) && forall k :: k in m ==> m[k].id == k
    ensures Keyed(Mapped(ProviderRow, m)) && TableFits(Mapped(ProviderRow, m), PROVIDER_SCHEMA)
    ensures Mapped(ProviderOf, Mapped(ProviderRow, m)) == m
  {
    hide ProviderOf, RowHasShape, TableFits, TableIsSized, Keyed;
    var same := (x: Provider) => x;
    forall k | k in m
      ensures RowId(ProviderRow(m[k])) == k && RowHasShape(ProviderRow(m[k]), PROVIDER_SCHEMA)
      ensures ProviderOf(ProviderRow(m[k])) == same(m[k])
    {
      ProviderHasShape(m[k]);
      ProviderReadsBack(m[k]);
    }
    MappedReadsBack(m, ProviderRow, ProviderOf, same, PROVIDER_SCHEMA);
  }

  lemma CapabilitiesReadBack(m: map<nat, Capability>)
    requires TableIsSized(Mapped(CapabilityRow, m)) && forall k :: k in m ==> m[k].id == k
    ensures Keyed(Mapped(CapabilityRow, m)) && TableFits(Mapped(CapabilityRow, m), CAPABILITY_SCHEMA)
    ensures Mapped(CapabilityOf, Mapped(CapabilityRow, m)) == m
  {
    hide CapabilityOf, RowHasShape, TableFits, TableIsSized, Keyed;
    var same := (x: Capability) => x;
    forall k | k in m
      ensures RowId(CapabilityRow(m[k])) == k && RowHasShape(CapabilityRow(m[k]), CAPABILITY_SCHEMA)
      ensures CapabilityOf(CapabilityRow(m[k])) == same(m[k])
    {
      CapabilityHasShape(m[k]);
      CapabilityReadsBack(m[k]);
    }
    MappedReadsBack(m, CapabilityRow, CapabilityOf, same, CAPABILITY_SCHEMA);
  }

  // ---------------------------------------------------------------------
  // All tables but the plans
  // ---------------------------------------------------------------------

  ghost predicate Fits(t: Table, schema: Schema) { Keyed(t) && TableFits(t, schema) }

  lemma MemoryReadsBack(s: State)
    requires WellFiled(s) && forall i :: 0 <= i < 8 ==> TableIsSized(TablesOf(s)[i])
    ensures Fits(Mapped(BufferRow, s.buffers), BUFFER_SCHEMA) && Fits(Mapped(DeviceRow, s.devices), DEVICE_SCHEMA)
    ensures Mapped(BufferOf, Mapped(BufferRow, s.buffers)) == Mapped(DurableBuffer, s.buffers)
    ensures Mapped(DeviceOf, Mapped(DeviceRow, s.devices)) == Mapped(DurableDevice, s.devices)
  {
    hide Keyed, TableFits, TableIsSized, Mapped, Rekeyed, DistinctIds, BUFFER_SCHEMA, DEVICE_SCHEMA;
    var ts := TablesOf(s);
    assert TableIsSized(ts[0]) && TableIsSized(ts[1]);
    BuffersReadBack(s.buffers);
    DevicesReadBack(s.devices);
  }

  lemma EndpointsAndNicsReadBack(s: State)
    requires WellFiled(s) && forall i :: 0 <= i < 8 ==> TableIsSized(TablesOf(s)[i])
    ensures Fits(Mapped(EndpointRow, s.endpoints), ENDPOINT_SCHEMA) && Fits(Mapped(NicRow, s.nics), NIC_SCHEMA)
    ensures Mapped(EndpointOf, Mapped(EndpointRow, s.endpoints)) == Mapped(DurableEndpoint, s.endpoints)
    ensures Mapped(NicOf, Mapped(NicRow, s.nics)) == Mapped(DurableNic, s.nics)
  {
    hide Keyed, TableFits, TableIsSized, Mapped, Rekeyed, DistinctIds, ENDPOINT_SCHEMA, NIC_SCHEMA;
    var ts := TablesOf(s);
    assert TableIsSized(ts[2]) && TableIsSized(ts[3]);
    EndpointsReadBack(s.endpoints);
    NicsReadBack(s.nics);
  }

  lemma GrantsReadBack(s: State)
    requires WellFiled(s) && forall i :: 0 <= i < 8 ==> TableIsSized(TablesOf(s)[i])
    ensures Fits(Mapped(StorageRow, s.storage), STORAGE_SCHEMA)
    ensures Fits(Mapped(ProviderRow, s.providers), PROVIDER_SCHEMA)
    ensures Fits(Mapped(CapabilityRow, Rekeyed(s.capabilities)), CAPABILITY_SCHEMA)
    ensures Fits(Mapped(RegistrationRow, s.registrations), REGISTRATION_SCHEMA)
    ensures Mapped(StorageOf, Mapped(StorageRow, s.storage)) == Mapped(DurableStorage, s.storage)
    ensures Mapped(ProviderOf, Mapped(ProviderRow, s.providers)) == s.providers
    ensures Mapped(CapabilityOf, Mapped(CapabilityRow, Rekeyed(s.capabilities))) == Rekeyed(s.capabilities)
    ensures Mapped(RegistrationOf, Mapped(RegistrationRow, s.registrations)) ==
              Mapped(DurableRegistration, s.registrations)
  {
    hide Keyed, TableFits, TableIsSized, Mapped;
    hide STORAGE_SCHEMA, PROVIDER_SCHEMA, CAPABILITY_SCHEMA, REGISTRATION_SCHEMA;
    var ts := TablesOf(s);
    assert TableIsSized(ts[4]) && TableIsSized(ts[5]) && TableIsSized(ts[6]) && TableIsSized(ts[7]);
    StorageEndpointsReadBack(s.storage);
    ProvidersReadBack(s.providers);
    CapabilitiesReadBack(Rekeyed(s.capabilities));
    RegistrationsReadBack(s.registrations);
  }

  lemma TablesFit(s: State)
    requires WellFiled(s) && forall i :: 0 <= i < 8 ==> TableIsSized(TablesOf(s)[i])
    ensures forall i :: 0 <= i < 8 ==> Fits(TablesOf(s)[i], SCHEMAS[i])
  {
    hide Fits, Mapped, WellFiled, TableIsSized, Rekeyed;
    hide BUFFER_SCHEMA, DEVICE_SCHEMA, ENDPOINT_SCHEMA, NIC_SCHEMA;
    hide STORAGE_SCHEMA, PROVIDER_SCHEMA, CAPABILITY_SCHEMA, REGISTRATION_SCHEMA;
    MemoryReadsBack(s);
    EndpointsAndNicsReadBack(s);
    GrantsReadBack(s);
  }

  lemma RestoredIsDurable(s: State, plans: Table)
    requires WellFiled(s) && forall i :: 0 <= i < 8 ==> TableIsSized(TablesOf(s)[i])
    ensures Restored(HeaderRow(s), TablesOf(s), plans) == Durable(s).(plans := Mapped(PlanOf, plans))
  {
    hide Fits, Mapped, WellFiled, TableIsSized, Rekeyed;
    MemoryReadsBack(s);
    EndpointsAndNicsReadBack(s);
    GrantsReadBack(s);
  }

  // ---------------------------------------------------------------------
  // The plans, whose rows overwrite the loop's own bound
  // ---------------------------------------------------------------------

  /** From row i on with this bound, the loop reads every row and then stops. */
  predicate ReadsAll(rows: seq<Row>, i: nat, bound: nat)
    requires i <= |rows|
    decreases |rows| - i
  {
    if i == |rows| then bound <= i else i < bound && ReadsAll(rows, i + 1, CopyCount(rows[i]))
  }

  /** Each copy count but the last exceeds the rows read so far; the last does not exceed the table. */
  predicate PlansReadable(rows: seq<Row>) {
    rows != [] ==>
      && (forall k :: 0 <= k < |rows| - 1 ==> k + 1 < CopyCount(rows[k]))
      && CopyCount(rows[|rows| - 1]) <= |rows|
  }

  lemma {:induction false} ReadsAllIff(rows: seq<Row>, i: nat, bound: nat)
    requires i < |rows|
    ensures ReadsAll(rows, i, bound) <==>
              && i < bound && (forall k :: i <= k < |rows| - 1 ==> k + 1 < CopyCount(rows[k]))
              && CopyCount(rows[|rows| - 1]) <= |rows|
    decreases |rows| - i
  {
    hide CopyCount;
    if i + 1 < |rows| { ReadsAllIff(rows, i + 1, CopyCount(rows[i])); }
  }

  /** One turn of the loop on an encoded row. */
  lemma PlanLoopTurn(rows: seq<Row>, i: nat, bound: nat)
    requires i < |rows| && i < bound && RowFits(rows[i], PLAN_SCHEMA)
    ensures
      var p := ParsePlanRows(i + 1, CopyCount(rows[i]), EncodeRows(rows[i + 1..]));
      ParsePlanRows(i, bound, EncodeRows(rows[i..])) ==
        if p.Malformed? then Malformed else Parsed([rows[i]] + p.value, p.rest)
  {
    hide RowFits, EncodeRow, CopyCount, PLAN_SCHEMA, ParseRow;
    var rest := rows[i..];
    assert rest[0] == rows[i] && rest[1..] == rows[i + 1..];
    RowReadsBack(rows[i], PLAN_SCHEMA, EncodeRows(rest[1..]));
  }

  lemma PlanLoopEnds(i: nat, bound: nat, bytes: seq<Byte>)
    ensures i >= bound ==> ParsePlanRows(i, bound, bytes) == Parsed([], bytes)
    ensures i < bound ==> ParsePlanRows(i, bound, []).Malformed?
  {
    hide CopyCount, PLAN_SCHEMA, ParseRow;
    PlanSchemaIsNotEmpty();
  }

  lemma {:induction false} PlanLoop(rows: seq<Row>, i: nat, bound: nat)
    requires i <= |rows| && forall k :: 0 <= k < |rows| ==> RowFits(rows[k], PLAN_SCHEMA)
    ensures
      var p := ParsePlanRows(i, bound, EncodeRows(rows[i..]));
      if ReadsAll(rows, i, bound) then p == Parsed(rows[i..], [])
      else p.Malformed? || (|p.value| < |rows| - i && p.value == rows[i..i + |p.value|])
    decreases |rows| - i
  {
    hide RowFits, EncodeRow, CopyCount, PLAN_SCHEMA, ParsePlanRows;
    PlanLoopEnds(i, bound, EncodeRows(rows[i..]));
    if i < |rows| && i < bound {
      PlanLoopTurn(rows, i, bound);
      PlanLoop(rows, i + 1, CopyCount(rows[i]));
      assert [rows[i]] + rows[i + 1..] == rows[i..];
      PrefixGrows(rows, i, ParsePlanRows(i + 1, CopyCount(rows[i]), EncodeRows(rows[i + 1..])));
    } else if i == |rows| {
      assert rows[i..] == [];
    }
  }

  lemma PrefixGrows(rows: seq<Row>, i: nat, p: Parsed<seq<Row>>)
    requires i < |rows|
    ensures p.Parsed? && |p.value| < |rows| - (i + 1) && p.value == rows[i + 1..i + 1 + |p.value|] ==>
              [rows[i]] + p.value == rows[i..i + 1 + |p.value|]
  {
  }

  lemma {:induction false} FiledIsNoLarger(rows: seq<Row>)
    ensures |Filed(rows)| <= |rows|
  {
    if rows == [] {
      // Base case: nothing to show.
    } else {
      var front, last := rows[..|rows| - 1], rows[|rows| - 1];
      FiledIsNoLarger(front);
      var t := Filed(front);
      assert t[RowId(last) := last].Keys == t.Keys + {RowId(last)};
    }
  }

  /** Filing some of a table's rows, from the first on, gives part of the table. */
  lemma FiledPrefixIsPart(t: Table, n: nat)
    requires Keyed(t) && n <= |RowsOf(t)|
    ensures forall k :: k in Filed(RowsOf(t)[..n]) ==> k in t && Filed(RowsOf(t)[..n])[k] == t[k]
  {
    hide Filed;
    var ks, rows := SortedKeys(t.Keys), RowsOf(t)[..n];
    FiledKeys(rows);
    forall k | k in Filed(rows) ensures k in t && Filed(rows)[k] == t[k] {
      var i :| 0 <= i < |rows| && rows[i] == Filed(rows)[k] && RowId(rows[i]) == k;
      assert ks[i] in ks && rows[i] == t[ks[i]];
    }
  }

  ghost predicate IsPart(t: Table, whole: Table) {
    forall k :: k in t ==> k in whole && t[k] == whole[k]
  }

  /** A plan table reads back as itself exactly when the copy counts steer the loop to its end; whatever is
      read is part of it. */
  lemma PlanTableReadsBack(t: Table)
    requires Keyed(t) && TableFits(t, PLAN_SCHEMA)
    ensures
      var p := ParsePlanTable(EncodeTable(t));
      && (p.Parsed? ==> IsPart(p.value, t))
      && if PlansReadable(RowsOf(t)) then p.Parsed? && p.value == t else p.Malformed? || |p.value| < |t|
  {
    hide Pow2, LittleEndian, Unsigned, ParseUnsigned, EncodeRows, RowFits, Filed, Keyed, PLAN_SCHEMA;
    hide ParsePlanRows, ReadsAll, CopyCount, RowsOf;
    PowersOfTwo();
    RowsFit(t, PLAN_SCHEMA);
    var rows := RowsOf(t);
    UnsignedReadsBack(|t|, 4, EncodeRows(rows));
    assert rows[0..] == rows;
    PlanLoop(rows, 0, |rows|);
    NothingToRead(rows);
    if rows != [] { ReadsAllIff(rows, 0, |rows|); }
    var p := ParsePlanRows(0, |rows|, EncodeRows(rows));
    if p.Parsed? {
      assert p.value == rows[..|p.value|];
      FiledPrefixIsPart(t, |p.value|);
      FiledIsNoLarger(p.value);
    }
    FiledRowsOf(t);
  }

  lemma NothingToRead(rows: seq<Row>)
    ensures rows == [] ==> ReadsAll(rows, 0, |rows|)
  {
  }

  lemma MappedSize<A, B>(f: A -> B, m: map<nat, A>)
    ensures |Mapped(f, m)| == |m|
  {
    assert Mapped(f, m).Keys == m.Keys;
  }

  lemma PersistedBodyParses(s: State)
    requires WellFiled(s) && WithinLimits(s)
    ensures
      var plans := ParsePlanTable(EncodeTable(PlanTable(s)));
      RecoverBody(Body(s)) == (if plans.Malformed? then Err(PersistenceError)
                               else Ok(Durable(s).(plans := Mapped(PlanOf, plans.value))))
  {
    hide WellFiled, EncodeTables, ParseTables, EncodeTable, ParsePlanTable, TablesOf, Durable, Restored, SCHEMAS;
    hide TableIsSized, Fits, Mapped, ParseRow, EncodeRow, HeaderRow, PlanTable;
    var plans, tables := EncodeTable(PlanTable(s)), EncodeTables(TablesOf(s));
    assert Body(s) == EncodeRow(HeaderRow(s)) + (tables + plans);
    HeaderFits(s);
    RowReadsBack(HeaderRow(s), HEADER_SCHEMA, tables + plans);
    TablesFit(s);
    TablesReadBackFitting(s, plans);
    var p := ParsePlanTable(plans);
    if p.Parsed? { RestoredIsDurable(s, p.value); }
  }

  lemma HeaderFits(s: State)
    requires RowIsSized(HeaderRow(s))
    ensures RowFits(HeaderRow(s), HEADER_SCHEMA)
  {
    SizedRowFits(HeaderRow(s), HEADER_SCHEMA);
  }

  lemma TablesReadBackFitting(s: State, rest: seq<Byte>)
    requires WellFiled(s) && forall i :: 0 <= i < 8 ==> Fits(TablesOf(s)[i], SCHEMAS[i])
    ensures ParseTables(SCHEMAS, EncodeTables(TablesOf(s)) + rest) == Parsed(TablesOf(s), rest)
  {
    hide WellFiled, EncodeTables, ParseTables, TablesOf, Keyed, TableFits;
    forall i | 0 <= i < 8 ensures Keyed(TablesOf(s)[i]) && TableFits(TablesOf(s)[i], SCHEMAS[i]) {
      assert Fits(TablesOf(s)[i], SCHEMAS[i]);
    }
    TablesReadBack(TablesOf(s), SCHEMAS, rest);
  }

  /** Within the limits of the format, recovery of the persisted bytes yields exactly what is durable of
      the state if and only if the plans' copy counts, in ascending order of plan id, lead the decoder
      through the whole plan table. Otherwise it fails, or drops plans. */
  lemma RecoverOfPersist(s: State)
    requires WellFiled(s) && WithinLimits(s)
    ensures Recover(Persist(s)) == Ok(Durable(s)) <==> PlansReadable(RowsOf(PlanTable(s)))
    ensures !PlansReadable(RowsOf(PlanTable(s))) && Recover(Persist(s)).Ok? ==>
              |Recover(Persist(s)).value.plans| < |s.plans|
  {
    hide WellFiled, Recover, RecoverBody, Body, Framed, EncodeTable, ParsePlanTable, TablesOf, PlansReadable, RowsOf;
    hide TableIsSized, Mapped, HeaderRow;
    FrameReadsBack(Body(s));
    PersistedBodyParses(s);
    PlansAreFiled(s);
    PlansReadBack(s.plans);
    PlanTableReadsBack(PlanTable(s));
    MappedSize(PlanRow, s.plans);
    MappedSize(DurablePlan, s.plans);
    var p := ParsePlanTable(EncodeTable(PlanTable(s)));
    if p.Parsed? { MappedSize(PlanOf, p.value); }
  }

  lemma PlansAreFiled(s: State)
    requires WellFiled(s)
    ensures forall k :: k in s.plans ==> s.plans[k].id == k
  {
  }
}
