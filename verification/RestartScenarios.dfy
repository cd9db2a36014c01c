/** Concrete runs that end in a restart: a plan that is lost, and a worker incarnation that comes back. */
module RestartScenarios {
  import opened Types
  import opened PathPlanner
  import opened Fields
  import opened Tables
  import opened Records
  import opened CoordinatorModel
  import opened Protocol
  import opened Operations
  import opened Planning
  import opened Lifetimes
  import opened StateFile
  import opened Recovery
  import opened Restart
  import opened Scenarios

  // ---------------------------------------------------------------------
  // A fabric in which only staging is possible: host buffer 3, host endpoint 2
  // ---------------------------------------------------------------------

  const HOST_PORT := EndpointParams(HostEndpoint, [], [], true, 0, Synthetic, SyntheticFixture, FABRIC)
  const HOST_MEMORY := BufferParams(HostPageable, 64, 64, 0, Local, Synthetic, SyntheticFixture, FABRIC, [])
  const STAGING := CapabilityParams(HOST, HOST_STAGING, TRUE, Synthetic, SyntheticFixture, FABRIC)

  const TARGET := Endpoint(2, 1, HostEndpoint, [], [], true, 0, Synthetic, SyntheticFixture, FABRIC, 2)
  const SOURCE :=
    Buffer(3, 1, FABRIC, HostPageable, 64, 64, 0, 0, Local, Unregistered, 0, 0, Active, Synthetic, SyntheticFixture, 3,
           [])
  const STAGEABLE := Capability(4, HOST, HOST_STAGING, TRUE, Synthetic, SyntheticFixture, FABRIC, 4)

  function WithTarget(): State { InitialState(1).(nextId := 2, freshness := 2, endpoints := map[2 := TARGET]) }
  function WithSource(): State { WithTarget().(nextId := 3, freshness := 3, buffers := map[3 := SOURCE]) }
  function Hosted(): State { WithSource().(nextId := 4, freshness := 4, capabilities := map[4 := STAGEABLE]) }

  const STAGED_WANTED := Request(3, 2, GpuToPeer, BestAvailable, 64)

  function StagedSnapshot(): Evidence {
    Evidence(SOURCE, TARGET, NIL_DEVICE, [], [STAGEABLE], [], [TARGET], [], [], 1)
  }

  function StagedVerdict(): Decision { Decide(STAGED_WANTED, StagedSnapshot()) }

  function StagedScript(): seq<Action> {
    [DoAddEndpoint(HOST_PORT), DoCreateBuffer(HOST_MEMORY), DoPublishCapability(STAGING, None),
     DoSnapshot(0, STAGED_WANTED, StagedSnapshot()), DoCommitPlan(0, None, [])]
  }

  lemma HostedObjects()
    ensures AddEndpoint(InitialState(1), HOST_PORT).state == WithTarget()
    ensures CreateBuffer(WithTarget(), HOST_MEMORY).state == WithSource()
  {
    hide LeavesGrants, LeavesWorkers;
  }

  lemma HostedCapability()
    ensures IsObservation(WithSource().capabilities, STAGING.provider, STAGING.capability, None)
    ensures PublishCapability(WithSource(), STAGING, None).state == Hosted()
  {
    hide LeavesGrants, LeavesWorkers;
  }

  lemma ListsNone<T(!new)>(m: map<nat, T>)
    requires m == map[]
    ensures Lists(m, [])
  {
    assert ListsBy(m, [], []);
  }

  lemma StagedSnapshotIsEvidence()
    ensures IsEvidence(Hosted(), STAGED_WANTED, StagedSnapshot())
  {
    hide Lists;
    var s := Hosted();
    ListsNone(s.registrations);
    ListsNone(s.devices);
    ListsNone(s.providers);
    ListsNone(Incarnations(s.workers));
    ListsOne(4, STAGEABLE);
    ListsOne(2, TARGET);
  }

  lemma StagedVerdictIsFallback()
    ensures StagedVerdict().eligibility.FallbackRequired? && Plannable(StagedVerdict())
    ensures StagedVerdict().sourceGeneration == 1 && StagedVerdict().destinationGeneration == 1
  {
    hide Decide;
    var ev := StagedSnapshot();
    assert ev.capabilities[0] == STAGEABLE && IsStagingEvidence(STAGEABLE, ev.epoch);
    assert !DeviceIsNewest(ev) && DestinationUsable(ev);
    FallbackIffStageable(STAGED_WANTED, ev);
    DecisionGenerations(STAGED_WANTED, ev);
  }

  // ---------------------------------------------------------------------
  // The run
  // ---------------------------------------------------------------------

  /** The staged plan: two copies, and every number small. */
  ghost predicate IsStaged(p: Plan) {
    && p.eligibility.FallbackRequired? && p.copyCount == 2 && p.explanation == [] && p.authority == FABRIC
    && p == p.(id := 5, pathGeneration := 6, generation := 1, source := 3, sourceGeneration := 1, destination := 2,
               destinationGeneration := 1, registrationId := 0, registrationGeneration := 0,
               registrationBufferGeneration := 0, expectedBytes := 64, epoch := 1)
  }

  const COPY := Staging(7, FABRIC, 64, 5)

  function Final(p: Plan): State {
    Hosted().(nextId := 7, freshness := 5, buffers := map[3 := SOURCE, 7 := COPY], plans := map[5 := p])
  }

  lemma HostedFacts()
    ensures
      var s := Hosted();
      && s.buffers == map[3 := SOURCE] && s.endpoints == map[2 := TARGET] && s.registrations == map[]
      && s.plans == map[]
      && s.nextId == 4 && s.freshness == 4 && s.epoch == 1 && s.limits == DEFAULT_LIMITS
      && SOURCE.id == 3 && SOURCE.generation == 1 && TARGET.id == 2 && TARGET.generation == 1
      && SOURCE.authority == FABRIC
      && IsLatest(RegisteredOnly(s.registrations), 3, 2, None)
  {
  }

  lemma StagedVerdictCommits()
    ensures 3 in Hosted().buffers && 2 in Hosted().endpoints
    ensures IsLatest(RegisteredOnly(Hosted().registrations), Hosted().buffers[3].id, Hosted().endpoints[2].id, None)
    ensures
      var step := CommitPlan(Hosted(), STAGED_WANTED, StagedVerdict(), None, []);
      step.reply.Ok? && IsStaged(step.reply.value) && step.state == Final(step.reply.value)
  {
    hide Hosted, StagedVerdict, IsLatest, RegisteredOnly, Stages, LeavesWorkers, SOURCE, TARGET, Staging, Plannable;
    HostedFacts();
    StagedVerdictIsFallback();
    assert map[3 := SOURCE][7 := COPY] == map[3 := SOURCE, 7 := COPY];
    StagingId();
  }

  lemma StagingId()
    ensures COPY.id == 7
  {
  }

  lemma StagedRun() returns (r: Run, p: Plan)
    ensures IsFreshRun(r) && r.actions == StagedScript() && |r.states| == 6 && IsStaged(p) && r.states[5].st == Final(p)
  {
    hide IsStep, IsRun, WithTarget, WithSource, Hosted, StagedVerdict, StagedSnapshot, Final, IsStaged, InitialState;
    hide AddEndpoint, CreateBuffer, PublishCapability, CommitPlan, IsObservation, IsEvidence, IsLatest, RegisteredOnly;
    HostedObjects();
    HostedCapability();
    r := Start(1);
    AddEndpointIsStep(System(InitialState(1), map[]), HOST_PORT);
    r := Extend(r, DoAddEndpoint(HOST_PORT), System(WithTarget(), map[]));
    CreateBufferIsStep(System(WithTarget(), map[]), HOST_MEMORY);
    r := Extend(r, DoCreateBuffer(HOST_MEMORY), System(WithSource(), map[]));
    PublishCapabilityIsStep(System(WithSource(), map[]), STAGING, None);
    r := Extend(r, DoPublishCapability(STAGING, None), System(Hosted(), map[]));
    var sys := StagedDecision();
    r := Extend(r, DoSnapshot(0, STAGED_WANTED, StagedSnapshot()), sys);
    StagedVerdictCommits();
    CommitPlanIsStep(sys, 0, None, []);
    p := CommitPlan(Hosted(), STAGED_WANTED, StagedVerdict(), None, []).reply.value;
    r := Extend(r, DoCommitPlan(0, None, []), System(Final(p), sys.calls - {0}));
  }

  lemma StagedDecision() returns (sys: System)
    ensures sys == System(Hosted(), map[0 := PlanCall(STAGED_WANTED, StagedVerdict())])
    ensures IsStep(System(Hosted(), map[]), DoSnapshot(0, STAGED_WANTED, StagedSnapshot()), sys)
  {
    hide IsStep, Hosted, Decide, IsEvidence, StagedSnapshot;
    StagedSnapshotIsEvidence();
    SnapshotIsStep(System(Hosted(), map[]), 0, STAGED_WANTED, StagedSnapshot());
    sys := System(Hosted(), map[0 := PlanCall(STAGED_WANTED, StagedVerdict())]);
  }

  // ---------------------------------------------------------------------
  // Its last state is well within the limits of the format
  // ---------------------------------------------------------------------

  predicate IsShort(f: Field) { IsSized(f) && !f.Strs? && (f.Str? ==> |f.text| <= 64) }
  predicate RowIsShort(row: Row) { |row| <= 24 && forall i :: 0 <= i < |row| ==> IsShort(row[i]) }
  ghost predicate TableIsShort(t: Table) { |t| <= 2 && forall k :: k in t ==> RowIsShort(t[k]) }

  lemma {:induction false} ShortRow(row: Row)
    requires forall i :: 0 <= i < |row| ==> IsShort(row[i])
    ensures |EncodeRow(row)| <= 68 * |row| && RowIsSized(row)
  {
    if row == [] {
      assert EncodeRow(row) == [];
    } else {
      ShortRow(row[1..]);
    }
  }

  lemma {:induction false} ShortRows(rows: seq<Row>)
    requires forall i :: 0 <= i < |rows| ==> RowIsShort(rows[i])
    ensures |EncodeRows(rows)| <= 1632 * |rows|
  {
    hide EncodeRow, RowIsSized;
    if rows == [] {
      assert EncodeRows(rows) == [];
    } else {
      ShortRow(rows[0]);
      ShortRows(rows[1..]);
    }
  }

  lemma ShortTable(t: Table)
    requires TableIsShort(t)
    ensures TableIsSized(t) && |EncodeTable(t)| <= 4000
  {
    hide EncodeRows, EncodeRow, RowIsShort, RowIsSized, SortedKeys;
    var ks := SortedKeys(t.Keys);
    forall i | 0 <= i < |ks| ensures RowIsShort(RowsOf(t)[i]) {
      assert ks[i] in ks;
    }
    ShortRows(RowsOf(t));
    forall k | k in t ensures RowIsSized(t[k]) { RowFitsItself(t[k]); }
  }

  lemma RowFitsItself(row: Row)
    requires RowIsShort(row)
    ensures RowIsSized(row)
  {
  }

  lemma {:induction false} ShortTables(ts: seq<Table>)
    requires forall i :: 0 <= i < |ts| ==> TableIsShort(ts[i])
    ensures |EncodeTables(ts)| <= 4000 * |ts|
  {
    hide EncodeTable, TableIsShort, TableIsSized;
    if ts == [] {
      assert EncodeTables(ts) == [];
    } else {
      ShortTable(ts[0]);
      ShortTables(ts[1..]);
    }
  }

  lemma ShortRecords()
    ensures RowIsShort(BufferRow(SOURCE)) && RowIsShort(EndpointRow(TARGET)) && RowIsShort(CapabilityRow(STAGEABLE))
  {
    hide TagOf;
  }

  lemma ShortCopy()
    ensures RowIsShort(BufferRow(COPY)) && COPY.id == 7
  {
    hide TagOf;
    assert |STAGING_NAME| == 16;
  }

  lemma ShortPlan(p: Plan)
    requires IsStaged(p)
    ensures RowIsShort(PlanRow(p)) && p.id == 5 && !p.Direct()
  {
    hide TagOf;
  }

  lemma MappedOne<A>(f: A -> Row, k: nat, a: A)
    requires RowIsShort(f(a))
    ensures TableIsShort(Mapped(f, map[k := a]))
  {
    hide RowIsShort;
    assert Mapped(f, map[k := a]) == map[k := f(a)];
  }

  lemma MappedTwo<A>(f: A -> Row, k: nat, a: A, j: nat, b: A)
    requires k != j && RowIsShort(f(a)) && RowIsShort(f(b))
    ensures TableIsShort(Mapped(f, map[k := a, j := b]))
  {
    hide RowIsShort;
    var t := Mapped(f, map[k := a, j := b]);
    assert t.Keys == {k, j} && |t| == |t.Keys|;
  }

  lemma MappedNone<A>(f: A -> Row, m: map<nat, A>)
    requires m == map[]
    ensures TableIsShort(Mapped(f, m))
  {
    NothingMapped(f, m);
  }

  lemma NothingMapped<A, B>(f: A -> B, m: map<nat, A>)
    requires m == map[]
    ensures Mapped(f, m) == map[]
  {
  }

  lemma RekeyedOne(cs: map<nat, Capability>)
    requires cs == map[4 := STAGEABLE]
    ensures DistinctIds(cs) && Rekeyed(cs) == cs
  {
  }

  lemma FinalFacts(p: Plan)
    ensures
      var s := Final(p);
      && s.buffers == map[3 := SOURCE, 7 := COPY] && s.endpoints == map[2 := TARGET]
      && s.capabilities == map[4 := STAGEABLE] && s.plans == map[5 := p]
      && s.devices == map[] && s.nics == map[] && s.storage == map[] && s.providers == map[] && s.registrations == map[]
      && s.epoch == 1 && s.nextId == 7 && s.freshness == 5
  {
  }

  lemma FinalObjectsAreShort(s: State, p: Plan)
    requires s == Final(p)
    ensures TableIsShort(Mapped(BufferRow, s.buffers)) && TableIsShort(Mapped(DeviceRow, s.devices))
    ensures TableIsShort(Mapped(EndpointRow, s.endpoints)) && TableIsShort(Mapped(NicRow, s.nics))
    ensures TableIsShort(Mapped(StorageRow, s.storage))
  {
    hide Final, Mapped, TableIsShort, RowIsShort, SOURCE, COPY, TARGET;
    FinalFacts(p);
    ShortRecords();
    ShortCopy();
    MappedTwo(BufferRow, 3, SOURCE, 7, COPY);
    MappedNone(DeviceRow, s.devices);
    MappedOne(EndpointRow, 2, TARGET);
    MappedNone(NicRow, s.nics);
    MappedNone(StorageRow, s.storage);
  }

  lemma FinalGrantsAreShort(s: State, p: Plan)
    requires s == Final(p) && IsStaged(p)
    ensures TableIsShort(Mapped(ProviderRow, s.providers)) && TableIsShort(Mapped(RegistrationRow, s.registrations))
    ensures DistinctIds(s.capabilities) && TableIsShort(Mapped(CapabilityRow, Rekeyed(s.capabilities)))
    ensures TableIsShort(PlanTable(s))
  {
    hide Final, IsStaged, Mapped, Rekeyed, DistinctIds, TableIsShort, RowIsShort, STAGEABLE;
    FinalFacts(p);
    ShortRecords();
    ShortPlan(p);
    MappedNone(ProviderRow, s.providers);
    RekeyedOne(s.capabilities);
    MappedOne(CapabilityRow, 4, STAGEABLE);
    MappedNone(RegistrationRow, s.registrations);
    MappedOne(PlanRow, 5, p);
  }

  lemma FinalTablesAreShort(s: State, p: Plan)
    requires s == Final(p) && IsStaged(p) && WellFiled(s)
    ensures forall i :: 0 <= i < 8 ==> TableIsShort(TablesOf(s)[i])
    ensures TableIsShort(PlanTable(s))
  {
    hide Final, IsStaged, WellFiled, Mapped, Rekeyed, DistinctIds, TableIsShort;
    FinalObjectsAreShort(s, p);
    FinalGrantsAreShort(s, p);
  }

  lemma ShortHeader(s: State)
    requires s.epoch == 1 && s.nextId == 7 && s.freshness == 5
    ensures RowIsSized(HeaderRow(s)) && |EncodeRow(HeaderRow(s))| <= 204
  {
    hide EncodeRow;
    ShortRow(HeaderRow(s));
  }

  lemma FinalIsWithinLimits(s: State, p: Plan)
    requires s == Final(p) && IsStaged(p) && WellFiled(s)
    ensures WithinLimits(s)
  {
    hide Final, IsStaged, WellFiled, TablesOf, PlanTable, TableIsShort, TableIsSized, EncodeTable, EncodeTables;
    hide EncodeRow, HeaderRow, RowIsSized;
    FinalFacts(p);
    FinalTablesAreShort(s, p);
    ShortHeader(s);
    ShortTables(TablesOf(s));
    forall i | 0 <= i < 8 ensures TableIsSized(TablesOf(s)[i]) { ShortTable(TablesOf(s)[i]); }
    ShortTable(PlanTable(s));
  }

  /** A new coordinator is given an endpoint, a buffer and evidence of host staging, and makes one staged plan.
      Its state file, well within every limit, does not restore it: after the only plan row the decoder wants
      a second one. */
  lemma StagedPlanIsLost() returns (r: Run)
    ensures IsFreshRun(r) && r.actions == StagedScript() && |r.states| == 6
    ensures
      var s := r.states[5].st;
      && |s.plans| == 1 && WellFiled(s) && WithinLimits(s)
      && Recover(Persist(s)) != Ok(Durable(s))
  {
    hide IsFreshRun, IsStaged, Final, WellFiled, WithinLimits, Recover, Persist, Durable, StagedScript, IsLife;
    var p;
    r, p := StagedRun();
    var s := r.states[5].st;
    FreshRunIsLife(r);
    RestartRestores(r, 5);
    FinalIsWithinLimits(s, p);
    FinalFacts(p);
    ShortPlan(p);
  }

  // ---------------------------------------------------------------------
  // A worker incarnation that dies and returns after a restart
  // ---------------------------------------------------------------------

  const INCARNATION := Authority(1, 1, 1)

  /** Nothing but a record of boots. */
  function Bereft(): State { InitialState(1).(maxBoot := map[1 := 1]) }

  lemma BereftTablesAreShort(s: State)
    requires s == Bereft() && WellFiled(s)
    ensures forall i :: 0 <= i < 8 ==> TableIsShort(TablesOf(s)[i])
    ensures TableIsShort(PlanTable(s)) && PlanTable(s) == map[]
  {
    hide WellFiled, Mapped, Rekeyed, DistinctIds, TableIsShort;
    MappedNone(BufferRow, s.buffers);
    MappedNone(DeviceRow, s.devices);
    MappedNone(EndpointRow, s.endpoints);
    MappedNone(NicRow, s.nics);
    MappedNone(StorageRow, s.storage);
    MappedNone(ProviderRow, s.providers);
    RekeyedNone(s.capabilities);
    MappedNone(CapabilityRow, s.capabilities);
    MappedNone(RegistrationRow, s.registrations);
    MappedNone(PlanRow, s.plans);
    NothingMapped(PlanRow, s.plans);
  }

  lemma RekeyedNone(cs: map<nat, Capability>)
    requires cs == map[]
    ensures DistinctIds(cs) && Rekeyed(cs) == cs
  {
  }

  lemma BereftIsDurable(s: State)
    requires s == Bereft()
    ensures WellFiled(s) && Durable(s) == InitialState(1)
  {
    hide WellFiled, Mapped, Rekeyed, DistinctIds;
    BereftIsWellFiled(s);
    NothingMapped(DurableBuffer, s.buffers);
    NothingMapped(DurableDevice, s.devices);
    NothingMapped(DurableEndpoint, s.endpoints);
    NothingMapped(DurableNic, s.nics);
    NothingMapped(DurableStorage, s.storage);
    NothingMapped(DurableRegistration, s.registrations);
    NothingMapped(DurablePlan, s.plans);
    RekeyedNone(s.capabilities);
  }

  lemma BereftIsWellFiled(s: State)
    requires s == Bereft()
    ensures WellFiled(s)
  {
  }

  lemma BereftRestarts(s: State)
    requires s == Bereft()
    ensures Restarts(s, InitialState(1))
  {
    hide WellFiled, TablesOf, TableIsShort, TableIsSized, EncodeTable, EncodeTables, EncodeRow, HeaderRow, RowIsSized;
    hide Recover, Persist, Durable, PlanTable, RowsOf;
    BereftIsDurable(s);
    BereftTablesAreShort(s);
    FirstHeader(s);
    ShortTables(TablesOf(s));
    forall i | 0 <= i < 8 ensures TableIsSized(TablesOf(s)[i]) { ShortTable(TablesOf(s)[i]); }
    ShortTable(PlanTable(s));
    RecoverOfPersist(s);
    NoRowsInEmptyTable(PlanTable(s));
  }

  lemma FirstHeader(s: State)
    requires s.epoch == 1 && s.nextId == 1 && s.freshness == 1
    ensures RowIsSized(HeaderRow(s)) && |EncodeRow(HeaderRow(s))| <= 204
  {
    hide EncodeRow;
    ShortRow(HeaderRow(s));
  }

  lemma NoRowsInEmptyTable(t: Table)
    requires t == map[]
    ensures RowsOf(t) == []
  {
  }

  lemma FirstLife() returns (r: Run)
    ensures IsFreshRun(r) && |r.states| == 3 && r.states[2].st == Bereft()
    ensures Live(r.states[1].st, INCARNATION) && !Live(r.states[2].st, INCARNATION)
  {
    hide IsStep, IsRun, RegisterWorker, MarkWorkerDead, InitialState;
    LivesAndDies();
    r := Start(1);
    RegisterWorkerIsStep(System(InitialState(1), map[]), 1, 1, 1);
    r := Extend(r, DoRegisterWorker(1, 1, 1), System(WithWorker(), map[]));
    MarkWorkerDeadIsStep(System(WithWorker(), map[]), 1);
    r := Extend(r, DoMarkWorkerDead(1), System(Bereft(), map[]));
  }

  lemma LivesAndDies()
    ensures RegisterWorker(InitialState(1), 1, 1, 1).state == WithWorker()
    ensures MarkWorkerDead(WithWorker(), 1) == Bereft()
    ensures Live(WithWorker(), INCARNATION) && !Live(Bereft(), INCARNATION)
  {
    hide LeavesGrants;
    assert Revalidate(map[], {}) == map[];
  }

  /** The epoch and the record of boots do not survive alike: in the second run of this lifetime the incarnation
      that died in the first lives again. */
  lemma RestartRevives() returns (rs: seq<Run>)
    ensures IsLifetime(rs) && |rs| == 2 && |rs[0].states| == 3 && |rs[1].states| == 2
    ensures Live(rs[0].states[1].st, INCARNATION) && !Live(rs[0].states[2].st, INCARNATION)
    ensures Live(rs[1].states[1].st, INCARNATION)
  {
    hide IsStep, StepAt, RegisterWorker, InitialState, Restarts;
    var r := FirstLife();
    BereftRestarts(Bereft());
    LivesAndDies();
    var r' := Start(1);
    RegisterWorkerIsStep(System(InitialState(1), map[]), 1, 1, 1);
    r' := Extend(r', DoRegisterWorker(1, 1, 1), System(WithWorker(), map[]));
    assert Restarts(r.states[2].st, r'.states[0].st);
    rs := [r, r'];
  }
}
