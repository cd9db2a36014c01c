/** Concrete runs of a new coordinator. */
module Scenarios {
  import opened Types
  import opened PathPlanner
  import opened CoordinatorModel
  import opened Protocol
  import opened Invariants
  import opened Runs
  import opened Operations
  import opened Grants
  import opened Planning
  import opened Standing
  import opened Identity

  lemma Start(epoch: nat) returns (r: Run)
    ensures IsFreshRun(r) && r == Run([System(InitialState(epoch), map[])], [])
  {
    r := Run([System(InitialState(epoch), map[])], []);
  }

  lemma Extend(r: Run, a: Action, sys: System) returns (r': Run)
    requires IsFreshRun(r) && IsStep(r.states[|r.states| - 1], a, sys)
    ensures IsFreshRun(r') && r' == Run(r.states + [sys], r.actions + [a])
  {
    hide IsStep;
    r' := Run(r.states + [sys], r.actions + [a]);
    RunExtends(r, a, sys);
  }

  // ---------------------------------------------------------------------
  // A fabric with one direct path: worker 1 owns buffer 4 and has it registered, as 100, for NIC 3
  // ---------------------------------------------------------------------

  const FABRIC := Authority(0, 0, 1)
  const OWNER := Authority(1, 1, 1)

  const GPU := DeviceParams([], [], true, Real, CudaDriver, FABRIC)
  const PORT := EndpointParams(NicEndpoint, [], [], true, 0, Real, RdmaProvider, FABRIC)
  const MEMORY := BufferParams(CudaDevice, 64, 64, 2, Local, Real, CudaDriver, OWNER, [])
  const DRIVER := ProviderParams(RDMA, true, Real, RdmaProvider)
  const OBSERVED := CapabilityParams(RDMA, DIRECT_NIC, TRUE, Real, RdmaProvider, FABRIC)
  const GRANT := Granted(100, Real, RdmaProvider, None)

  function Asking(buffer: nat): RegisterParams { RegisterParams(buffer, 3, 0, OWNER, Real, RdmaProvider, []) }

  const DEVICE := Device(2, 1, [], [], true, Real, CudaDriver, FABRIC, 2)
  const NIC := Endpoint(3, 1, NicEndpoint, [], [], true, 0, Real, RdmaProvider, FABRIC, 3)
  const BUFFER :=
    Buffer(4, 1, OWNER, CudaDevice, 64, 64, 2, 0, Local, Unregistered, 0, 0, Active, Real, CudaDriver, 4, [])
  const PROVIDER := Provider(5, RDMA, true, Real, RdmaProvider)
  const CAPABILITY := Capability(6, RDMA, DIRECT_NIC, TRUE, Real, RdmaProvider, FABRIC, 5)
  const GRANTED := Registration(100, 1, 4, 1, 3, 1, 0, OWNER, Registered, Real, RdmaProvider, false, 6, [], None)
  const NOTED :=
    BUFFER.(registrationState := Registered, registrationId := 100, registrationGeneration := 1, freshness := 7)

  function WithWorker(): State { InitialState(1).(workers := map[1 := 1], maxBoot := map[1 := 1]) }
  function WithDevice(): State { WithWorker().(nextId := 2, freshness := 2, devices := map[2 := DEVICE]) }
  function WithEndpoint(): State { WithDevice().(nextId := 3, freshness := 3, endpoints := map[3 := NIC]) }
  function WithBuffer(): State { WithEndpoint().(nextId := 4, freshness := 4, buffers := map[4 := BUFFER]) }
  function WithProvider(): State { WithBuffer().(nextId := 5, providers := map[5 := PROVIDER]) }
  function WithCapability(): State {
    WithProvider().(nextId := 6, freshness := 5, capabilities := map[6 := CAPABILITY])
  }
  function Ready(): State {
    WithCapability().(freshness := 7, registrations := map[100 := GRANTED], buffers := map[4 := NOTED])
  }

  function Preparation(): seq<Action> {
    [DoRegisterWorker(1, 1, 1), DoAddDevice(GPU), DoAddEndpoint(PORT), DoCreateBuffer(MEMORY),
     DoAddProvider(DRIVER, None),
     DoPublishCapability(OBSERVED, None), DoRegisterBuffer(Asking(4), GRANT, None)]
  }

  lemma PreparedObjects()
    ensures RegisterWorker(InitialState(1), 1, 1, 1).state == WithWorker()
    ensures AddDevice(WithWorker(), GPU).state == WithDevice()
    ensures AddEndpoint(WithDevice(), PORT).state == WithEndpoint()
    ensures CreateBuffer(WithEndpoint(), MEMORY).state == WithBuffer()
  {
    hide LeavesGrants, LeavesWorkers;
  }

  lemma PreparedProvider()
    ensures IsNamed(WithBuffer().providers, DRIVER.name, None)
    ensures AddProvider(WithBuffer(), DRIVER, None).state == WithProvider()
  {
    hide LeavesGrants, LeavesWorkers;
  }

  lemma PreparedCapability()
    ensures IsObservation(WithProvider().capabilities, OBSERVED.provider, OBSERVED.capability, None)
    ensures PublishCapability(WithProvider(), OBSERVED, None).state == WithCapability()
  {
    hide LeavesGrants, LeavesWorkers;
  }

  lemma PreparedRegistration()
    ensures IsLatest(WithCapability().registrations, 4, 3, None)
    ensures RegisterBuffer(WithCapability(), Asking(4), GRANT, None).state == Ready()
  {
    hide LeavesWorkers, WithCapability, RegisterRejection, NewRegistration, Ready;
    NothingRejected();
    FirstGrant();
  }

  lemma NothingRejected()
    ensures WithCapability().registrations == map[] && RegisterRejection(WithCapability(), Asking(4)).None?
  {
  }

  lemma FirstGrant()
    ensures 4 in WithCapability().buffers && 3 in WithCapability().endpoints
    ensures NewRegistration(WithCapability(), Asking(4), GRANT, 1).state == Ready()
  {
    hide LeavesWorkers;
    var s := WithCapability();
    assert s.buffers == map[4 := BUFFER] && s.endpoints == map[3 := NIC] && s.registrations == map[];
    assert s.buffers[4 := NOTED] == map[4 := NOTED];
  }

  /** The fabric is reached by a run of a new coordinator. */
  lemma Prepare() returns (r: Run)
    ensures IsFreshRun(r) && r.actions == Preparation() && |r.states| == 8 && r.states[7] == System(Ready(), map[])
  {
    hide IsStep, IsRun, WithWorker, WithDevice, WithEndpoint, WithBuffer, WithProvider, WithCapability, Ready;
    hide RegisterWorker, AddDevice, AddEndpoint, CreateBuffer, AddProvider, PublishCapability, RegisterBuffer;
    hide IsLatest, IsNamed, IsObservation, InitialState;
    PreparedObjects();
    PreparedProvider();
    PreparedCapability();
    PreparedRegistration();
    r := Start(1);
    RegisterWorkerIsStep(System(InitialState(1), map[]), 1, 1, 1);
    r := Extend(r, DoRegisterWorker(1, 1, 1), System(WithWorker(), map[]));
    AddDeviceIsStep(System(WithWorker(), map[]), GPU);
    r := Extend(r, DoAddDevice(GPU), System(WithDevice(), map[]));
    AddEndpointIsStep(System(WithDevice(), map[]), PORT);
    r := Extend(r, DoAddEndpoint(PORT), System(WithEndpoint(), map[]));
    CreateBufferIsStep(System(WithEndpoint(), map[]), MEMORY);
    r := Extend(r, DoCreateBuffer(MEMORY), System(WithBuffer(), map[]));
    AddProviderIsStep(System(WithBuffer(), map[]), DRIVER, None);
    r := Extend(r, DoAddProvider(DRIVER, None), System(WithProvider(), map[]));
    PublishCapabilityIsStep(System(WithProvider(), map[]), OBSERVED, None);
    r := Extend(r, DoPublishCapability(OBSERVED, None), System(WithCapability(), map[]));
    RegisterBufferIsStep(System(WithCapability(), map[]), Asking(4), GRANT, None);
    r := Extend(r, DoRegisterBuffer(Asking(4), GRANT, None), System(Ready(), map[]));
  }

  // ---------------------------------------------------------------------
  // The path is direct
  // ---------------------------------------------------------------------

  const WANTED := Request(4, 3, GpuToPeer, DirectOnly, 64)

  function Snapshot(): Evidence {
    Evidence(NOTED, NIC, DEVICE, [GRANTED], [CAPABILITY], [DEVICE], [NIC], [PROVIDER], [(1, 1)], 1)
  }

  lemma ListsOne<T(!new)>(k: nat, v: T)
    ensures Lists(map[k := v], [v])
  {
    assert ListsBy(map[k := v], [v], [k]);
  }

  lemma ReadyFacts()
    ensures
      var s := Ready();
      && s.epoch == 1 && s.buffers == map[4 := NOTED] && s.endpoints == map[3 := NIC] && s.devices == map[2 := DEVICE]
      && s.registrations == map[100 := GRANTED] && s.capabilities == map[6 := CAPABILITY]
      && s.providers == map[5 := PROVIDER] && s.workers == map[1 := 1] && NOTED.device == 2
  {
  }

  lemma OneIncarnation()
    ensures Lists(Incarnations(map[1 := 1]), [(1, 1)])
  {
    hide Lists;
    ListsOne<(nat, nat)>(1, (1, 1));
    assert Incarnations(map[1 := 1]) == map[1 := (1, 1)];
  }

  lemma SnapshotIsEvidence()
    ensures IsEvidence(Ready(), WANTED, Snapshot())
  {
    hide Lists, Incarnations, Ready, NOTED, NIC, DEVICE, GRANTED, CAPABILITY, PROVIDER;
    ReadyFacts();
    ListsOne(100, GRANTED);
    ListsOne(6, CAPABILITY);
    ListsOne(2, DEVICE);
    ListsOne(3, NIC);
    ListsOne(5, PROVIDER);
    OneIncarnation();
  }

  lemma SnapshotLookups()
    ensures
      var ev := Snapshot();
      && RegistrationFor(ev) == Some(GRANTED) && CapabilityFor(ev) == Some(CAPABILITY)
      && ProviderUsable(ev, RDMA) && EndpointIsNewest(ev) && DeviceIsNewest(ev) && AuthorityLive(OWNER, ev)
  {
    var ev := Snapshot();
    assert ev.registrations[0] == GRANTED && ev.providers[0] == PROVIDER && ev.liveWorkers[0] == (1, 1);
    assert ev.devices[0] == DEVICE && ev.endpoints[0] == NIC;
    assert RegistrationFor(ev) == Some(GRANTED);
    assert CapabilityFor(ev) == Some(CAPABILITY);
    assert ProviderUsable(ev, RDMA);
    assert EndpointIsNewest(ev);
    assert DeviceIsNewest(ev);
    assert AuthorityLive(OWNER, ev);
  }

  lemma SnapshotIsDirect()
    ensures DirectPathValid(WANTED, Snapshot())
  {
    hide RegistrationFor, CapabilityFor, ProviderUsable, EndpointIsNewest, DeviceIsNewest, AuthorityLive;
    SnapshotLookups();
    assert WANTED.size % Snapshot().source.alignment == 0;
    assert RegistrationUsable(Some(GRANTED), Snapshot()) && CapabilityProven(Some(CAPABILITY));
  }

  // ---------------------------------------------------------------------
  // From the snapshot to a completed transfer, whatever worker 1 has become
  // ---------------------------------------------------------------------

  const RUN := Outcome(Completed, 64, false, false, [], Real, RdmaProvider)

  function Verdict(): Decision { Decide(WANTED, Snapshot()) }

  lemma VerdictIsDirect()
    ensures IsDirect(Verdict().eligibility) && Verdict().sourceGeneration == 1 && Verdict().destinationGeneration == 1
  {
    hide Decide, DirectPathValid;
    SnapshotIsDirect();
    DirectIffValid(WANTED, Snapshot());
    DecisionGenerations(WANTED, Snapshot());
  }

  /** The fabric, with worker 1 at any boot or gone. */
  ghost predicate IsReady(s: State) { s == Ready().(workers := s.workers, maxBoot := s.maxBoot) }

  lemma GrantIsChosen(s: State)
    requires IsReady(s)
    ensures 4 in s.buffers && 3 in s.endpoints && s.buffers[4] == NOTED && s.endpoints[3] == NIC
    ensures s.registrations == map[100 := GRANTED] && s.plans == map[] && s.attempts == map[] && s.receipts == map[]
    ensures s.nextId == 6 && s.epoch == 1 && s.limits == DEFAULT_LIMITS
    ensures IsLatest(RegisteredOnly(s.registrations), s.buffers[4].id, s.endpoints[3].id, Some(100))
  {
  }

  /** What the commit makes of the verdict. */
  ghost predicate IsMade(p: Plan) {
    && p.id == 7 && p.Direct() && p.authoritative && p.epoch == 1 && p.expectedBytes == 64
    && p.source == 4 && p.sourceGeneration == 1 && p.destination == 3 && p.destinationGeneration == 1
    && p.registrationId == 100 && p.registrationGeneration == 1 && p.registrationBufferGeneration == 1
  }

  lemma VerdictCommits(s: State)
    requires IsReady(s)
    ensures IsLatest(RegisteredOnly(s.registrations), s.buffers[4].id, s.endpoints[3].id, Some(100))
    ensures
      var step := CommitPlan(s, WANTED, Verdict(), Some(100), []);
      && step.reply.Ok? && IsMade(step.reply.value)
      && step.state == s.(nextId := 8, plans := map[7 := step.reply.value])
  {
    hide Verdict, IsReady, IsLatest, RegisteredOnly, Stages, LeavesWorkers, NOTED, NIC, GRANTED;
    GrantIsChosen(s);
    VerdictIsDirect();
    GrantFields();
  }

  lemma GrantFields()
    ensures NOTED.id == 4 && NOTED.generation == 1 && NIC.id == 3 && NIC.generation == 1
    ensures GRANTED.id == 100 && GRANTED.generation == 1 && GRANTED.bufferGeneration == 1 && GRANTED.state.Registered?
    ensures GRANTED.Joins(4, 3) && GRANTED.authority == OWNER
  {
  }

  /** The plan can begin: everything it rests on is where it was. */
  ghost predicate CanBegin(s: State) {
    && 7 in s.plans && IsMade(s.plans[7]) && s.epoch == 1 && s.attempts == map[] && s.receipts == map[]
    && s.limits == DEFAULT_LIMITS
    && 4 in s.buffers && s.buffers[4].generation == 1 && 3 in s.endpoints && s.endpoints[3].generation == 1
    && 100 in s.registrations && s.registrations[100].generation == 1 && s.registrations[100].state.Registered?
  }

  lemma BeginsForFabric(s: State)
    requires CanBegin(s)
    ensures
      var step := BeginTransfer(s, 7, FABRIC, RUN);
      && step.reply.Ok? && step.reply.value.id == s.nextId + 1
      && step.state == s.(nextId := s.nextId + 1, attempts := map[s.nextId + 1 := step.reply.value])
      && step.reply.value.state.InFlight? && !step.reply.value.completionCommitted && step.reply.value.planId == 7
      && step.reply.value.bytes == 64 && step.reply.value.submittedBytes == 64 && !step.reply.value.integrityChecked
  {
    hide LeavesGrants, LeavesWorkers;
  }

  lemma CompletesForFabric(s: State, id: nat)
    requires id in s.attempts && id !in s.receipts && 7 in s.plans && s.plans[7].authoritative
    requires
      var a := s.attempts[id];
      && a.state.InFlight? && !a.completionCommitted && a.planId == 7
      && a.bytes == 64 && a.submittedBytes == 64 && !a.integrityChecked
    ensures
      var s' := CompleteTransfer(s, id, FABRIC).state;
      id in s'.attempts && s'.attempts[id].planId == 7 && s'.attempts[id].state.Completed?
  {
    hide LeavesGrants, LeavesWorkers;
  }

  // ---------------------------------------------------------------------
  // A worker that registers again at a higher boot leaves its registration REGISTERED
  // ---------------------------------------------------------------------

  function Rebooted(): State { Ready().(workers := map[1 := 2], maxBoot := map[1 := 2]) }

  lemma RebootKeepsGrant()
    ensures RegisterWorker(Ready(), 1, 2, 1).state == Rebooted() && IsReady(Rebooted()) && IsReady(Ready())
    ensures !Live(Rebooted(), OWNER) && Outgrows(Ready(), DoRegisterWorker(1, 2, 1))
  {
    hide LeavesGrants;
    assert Ready().registrations[100].authority.worker == 1;
  }

  function OutgrownScript(): seq<Action> {
    Preparation() + [DoSnapshot(0, WANTED, Snapshot()), DoRegisterWorker(1, 2, 1), DoCommitPlan(0, Some(100), []),
                     DoBeginTransfer(7, FABRIC, RUN), DoCompleteTransfer(9, FABRIC)]
  }

  /** The decision is taken in this fabric, and waits for its commit. */
  lemma Evaluated(r: Run) returns (r': Run)
    requires IsFreshRun(r) && r.states[|r.states| - 1] == System(Ready(), map[])
    ensures IsFreshRun(r')
    ensures r' == Run(r.states + [System(Ready(), map[0 := PlanCall(WANTED, Verdict())])],
                      r.actions + [DoSnapshot(0, WANTED, Snapshot())])
  {
    hide IsStep, IsRun, Ready, IsEvidence, Decide, Snapshot;
    SnapshotIsEvidence();
    SnapshotIsStep(System(Ready(), map[]), 0, WANTED, Snapshot());
    r' := Extend(r, DoSnapshot(0, WANTED, Snapshot()), System(Ready(), map[0 := PlanCall(WANTED, Verdict())]));
  }

  /** The commit, in the fabric with worker 1 at any boot. */
  lemma Committed(r: Run, s: State) returns (r': Run, p: Plan)
    requires IsFreshRun(r) && IsReady(s)
    requires r.states[|r.states| - 1] == System(s, map[0 := PlanCall(WANTED, Verdict())])
    ensures IsFreshRun(r') && IsMade(p) && r'.actions == r.actions + [DoCommitPlan(0, Some(100), [])]
    ensures r'.states == r.states + [System(s.(nextId := 8, plans := map[7 := p]), map[])]
  {
    hide IsStep, IsRun, IsReady, Verdict, CommitPlan, IsLatest, RegisteredOnly;
    var sys := System(s, map[0 := PlanCall(WANTED, Verdict())]);
    GrantIsChosen(s);
    VerdictCommits(s);
    CommitPlanIsStep(sys, 0, Some(100), []);
    p := CommitPlan(s, WANTED, Verdict(), Some(100), []).reply.value;
    assert sys.calls - {0} == map[];
    r' := Extend(r, DoCommitPlan(0, Some(100), []), System(s.(nextId := 8, plans := map[7 := p]), map[]));
  }

  lemma OutgrownCommit() returns (r: Run, p: Plan)
    ensures IsFreshRun(r) && r.actions == OutgrownScript()[..10] && |r.states| == 11 && IsMade(p)
    ensures r.states[8].st == Ready() && r.states[9].st == Rebooted()
    ensures r.states[10] == System(Rebooted().(nextId := 8, plans := map[7 := p]), map[])
  {
    hide IsStep, IsRun, Ready, Rebooted, Verdict, RegisterWorker, IsReady, Snapshot;
    r := Prepare();
    r := Evaluated(r);
    RebootKeepsGrant();
    var calls := map[0 := PlanCall(WANTED, Verdict())];
    RegisterWorkerIsStep(System(Ready(), calls), 1, 2, 1);
    r := Extend(r, DoRegisterWorker(1, 2, 1), System(Rebooted(), calls));
    r, p := Committed(r, Rebooted());
  }

  lemma OutgrownFacts(s: State, p: Plan)
    requires IsMade(p) && s == Rebooted().(nextId := 8, plans := map[7 := p])
    ensures CanBegin(s) && BoundTo(p, s.registrations) && Rebooted().plans == map[] && s.plans == map[7 := p]
    ensures HeldByTheDead(Rebooted()) && HeldByTheDead(s)
  {
  }

  lemma BeginningChangesNoHolder(s: State, s': State)
    requires HeldByTheDead(s) && s' == s.(nextId := s'.nextId, attempts := s'.attempts)
    ensures HeldByTheDead(s')
  {
  }

  lemma ScriptEnds()
    ensures |OutgrownScript()| == 12 && OutgrownScript()[8] == DoRegisterWorker(1, 2, 1)
    ensures OutgrownScript() ==
              OutgrownScript()[..10] + [DoBeginTransfer(7, FABRIC, RUN), DoCompleteTransfer(9, FABRIC)]
  {
    hide Snapshot, FABRIC, RUN, GRANT, OBSERVED, DRIVER, MEMORY, PORT, GPU;
  }

  /** In this run worker 1 moves to boot 2 after the snapshot. Its registration 100 stays REGISTERED although its
      authority is no longer live; the commit binds an authoritative direct plan to it, and the transfer
      begins and completes. */
  lemma OutgrownHolderTransfers() returns (r: Run)
    ensures IsFreshRun(r) && r.actions == OutgrownScript() && |r.states| == 13
    ensures Outgrows(r.states[8].st, DoRegisterWorker(1, 2, 1)) && r.actions[8] == DoRegisterWorker(1, 2, 1)
    ensures HeldByTheDead(r.states[9].st) && HeldByTheDead(r.states[10].st) && HeldByTheDead(r.states[11].st)
    ensures
      var s := r.states[10].st;
      7 !in r.states[9].st.plans && 7 in s.plans && s.plans[7].Direct() && s.plans[7].authoritative &&
      BoundTo(s.plans[7], s.registrations)
    ensures
      var s := r.states[12].st;
      9 in s.attempts && s.attempts[9].planId == 7 && s.attempts[9].state.Completed?
  {
    hide IsStep, IsRun, IsMade, Ready, Rebooted, CanBegin, BoundTo, Outgrows, OutgrownScript, HeldByTheDead, FABRIC;
    hide RUN;
    var p;
    r, p := OutgrownCommit();
    RebootKeepsGrant();
    var s := r.states[10].st;
    OutgrownFacts(s, p);
    MadeIsDirect(p);
    ScriptEnds();
    r := Finished(r, s);
    BeginningChangesNoHolder(s, r.states[11].st);
  }

  lemma MadeIsDirect(p: Plan)
    requires IsMade(p)
    ensures p.Direct() && p.authoritative
  {
  }

  /** Registration 100 is REGISTERED and the authority that holds it is not live. */
  ghost predicate HeldByTheDead(s: State) {
    100 in s.registrations && s.registrations[100].state.Registered? && !Live(s, s.registrations[100].authority)
  }

  lemma Finished(r: Run, s: State) returns (r': Run)
    requires IsFreshRun(r) && CanBegin(s) && s.nextId == 8 && r.states[|r.states| - 1] == System(s, map[])
    ensures IsFreshRun(r') && r'.actions == r.actions + [DoBeginTransfer(7, FABRIC, RUN), DoCompleteTransfer(9, FABRIC)]
    ensures |r'.states| == |r.states| + 2 && r'.states[..|r.states|] == r.states
    ensures
      var begun := r'.states[|r.states|].st;
      begun == s.(nextId := 9, attempts := begun.attempts)
    ensures
      var done := r'.states[|r.states| + 1].st;
      9 in done.attempts && done.attempts[9].planId == 7 && done.attempts[9].state.Completed?
  {
    hide IsStep, IsRun, BeginTransfer, CompleteTransfer, FABRIC, RUN;
    BeginsForFabric(s);
    var s1 := BeginTransfer(s, 7, FABRIC, RUN).state;
    BeginTransferIsStep(System(s, map[]), 7, FABRIC, RUN);
    r' := Extend(r, DoBeginTransfer(7, FABRIC, RUN), System(s1, map[]));
    CompletesForFabric(s1, 9);
    var s2 := CompleteTransfer(s1, 9, FABRIC).state;
    CompleteTransferIsStep(System(s1, map[]), 9, FABRIC);
    r' := Extend(r', DoCompleteTransfer(9, FABRIC), System(s2, map[]));
  }

  // ---------------------------------------------------------------------
  // A death does not stop what is in flight
  // ---------------------------------------------------------------------

  function DeathScript(): seq<Action> {
    Preparation() + [DoSnapshot(0, WANTED, Snapshot()), DoCommitPlan(0, Some(100), []), DoBeginTransfer(7, FABRIC, RUN),
                     DoMarkWorkerDead(1), DoCompleteTransfer(9, FABRIC)]
  }

  lemma Planned() returns (r: Run, p: Plan)
    ensures IsFreshRun(r) && |r.states| == 10 && |r.actions| == 9 && IsMade(p)
    ensures r.actions == Preparation() + [DoSnapshot(0, WANTED, Snapshot()), DoCommitPlan(0, Some(100), [])]
    ensures r.states[9] == System(Ready().(nextId := 8, plans := map[7 := p]), map[])
  {
    hide IsStep, IsRun, Ready, Rebooted, Verdict, RegisterWorker, IsReady, Snapshot;
    r := Prepare();
    r := Evaluated(r);
    RebootKeepsGrant();
    r, p := Committed(r, Ready());
  }

  lemma PlannedCanBegin(s: State, p: Plan)
    requires IsMade(p) && s == Ready().(nextId := 8, plans := map[7 := p])
    ensures CanBegin(s) && s.workers == map[1 := 1] && s.registrations == map[100 := GRANTED] && s.nextId == 8
    ensures s.buffers == map[4 := NOTED] && s.endpoints == map[3 := NIC] && s.plans == map[7 := p]
    ensures s.epoch == 1 && s.freshness == 7 && s.limits == DEFAULT_LIMITS
  {
  }

  /** Worker 1 dies while its transfer is in flight: registration 100 is marked, and the transfer completes. */
  lemma TransferOutlivesDeath() returns (r: Run)
    ensures IsFreshRun(r) && r.actions == DeathScript() && |r.states| == 13
    ensures
      var s := r.states[11].st;
      1 !in s.workers && 100 in s.registrations && s.registrations[100].state.RevalidationRequired?
    ensures
      var s := r.states[12].st;
      9 in s.attempts && s.attempts[9].planId == 7 && s.attempts[9].state.Completed?
  {
    hide IsStep, IsRun, IsMade, Ready, BeginTransfer, CompleteTransfer, MarkWorkerDead, Preparation, Snapshot, FABRIC;
    hide RUN;
    var p;
    r, p := Planned();
    var s := r.states[9].st;
    PlannedCanBegin(s, p);
    BeginsForFabric(s);
    var s1 := BeginTransfer(s, 7, FABRIC, RUN).state;
    BeginTransferIsStep(System(s, map[]), 7, FABRIC, RUN);
    r := Extend(r, DoBeginTransfer(7, FABRIC, RUN), System(s1, map[]));
    var s2 := MarkWorkerDead(s1, 1);
    MarkWorkerDeadIsStep(System(s1, map[]), 1);
    r := Extend(r, DoMarkWorkerDead(1), System(s2, map[]));
    DeathFrame(s1, 1);
    OwnerIsMarked(s1);
    MadeIsDirect(p);
    CompletesForFabric(s2, 9);
    CompleteTransferIsStep(System(s2, map[]), 9, FABRIC);
    r := Extend(r, DoCompleteTransfer(9, FABRIC), System(CompleteTransfer(s2, 9, FABRIC).state, map[]));
  }

  lemma OwnerIsMarked(s: State)
    requires s.registrations == map[100 := GRANTED]
    ensures
      var s' := MarkWorkerDead(s, 1);
      1 !in s'.workers && 100 in s'.registrations && s'.registrations[100].state.RevalidationRequired?
  {
    GrantFields();
  }

  // ---------------------------------------------------------------------
  // A backend that gives an id twice
  // ---------------------------------------------------------------------

  const OTHER :=
    Buffer(9, 1, OWNER, CudaDevice, 64, 64, 2, 0, Local, Unregistered, 0, 0, Active, Real, CudaDriver, 8, [])

  function ReuseScript(): seq<Action> {
    Preparation() + [DoSnapshot(0, WANTED, Snapshot()), DoCommitPlan(0, Some(100), []), DoCreateBuffer(MEMORY),
                     DoRegisterBuffer(Asking(9), GRANT, None), DoBeginTransfer(7, FABRIC, RUN)]
  }

  lemma SecondBuffer(s: State, p: Plan)
    requires IsMade(p) && s == Ready().(nextId := 8, plans := map[7 := p])
    ensures CreateBuffer(s, MEMORY).state == s.(nextId := 9, freshness := 8, buffers := map[4 := NOTED, 9 := OTHER])
  {
    hide LeavesGrants, LeavesWorkers, Ready, IsMade, CanBegin, NOTED;
    PlannedCanBegin(s, p);
    assert map[4 := NOTED][9 := OTHER] == map[4 := NOTED, 9 := OTHER];
  }

  lemma SecondRegistrationIsAdmissible(s: State, s': State, p: Plan)
    requires IsMade(p) && s == Ready().(nextId := 8, plans := map[7 := p])
    requires s' == s.(nextId := 9, freshness := 8, buffers := map[4 := NOTED, 9 := OTHER])
    ensures CanBegin(s') && s'.plans == map[7 := p] && IsLatest(s'.registrations, 9, 3, None)
    ensures RegisterRejection(s', Asking(9)).None? && s'.registrations == map[100 := GRANTED]
  {
    hide Ready, IsMade;
    PlannedCanBegin(s, p);
    GrantFields();
  }

  /** In this run the backend gives id 100 to buffer 4 and then to buffer 9. The plan for buffer 4 is still
      admitted, on what is now the registration of buffer 9. */
  lemma ReusedIdAdmitsOtherPair() returns (r: Run)
    ensures IsFreshRun(r) && r.actions == ReuseScript() && |r.states| == 13 && !HasFreshIds(r)
    ensures
      var s := r.states[11].st;
      && 7 in s.plans && s.plans[7].Direct() && s.plans[7].registrationId == 100 && s.plans[7].source == 4
      && 100 in s.registrations && s.registrations[100].Joins(9, 3)
    ensures BeginTransfer(r.states[11].st, 7, FABRIC, RUN).reply.Ok?
    ensures exists k :: k in r.states[12].st.attempts && r.states[12].st.attempts[k].planId == 7
  {
    hide IsStep, IsRun, Ready, BeginTransfer, CreateBuffer, RegisterBuffer, RegisterRejection, IsLatest, CanBegin;
    hide Preparation, Snapshot, FABRIC, RUN, Inv, HasFreshIds, MEMORY, NOTED, OTHER;
    var p;
    r, p := Planned();
    var s := r.states[9].st;
    SecondBuffer(s, p);
    var s1 := CreateBuffer(s, MEMORY).state;
    SecondRegistrationIsAdmissible(s, s1, p);
    CreateBufferIsStep(System(s, map[]), MEMORY);
    r := Extend(r, DoCreateBuffer(MEMORY), System(s1, map[]));
    var s2 := RegisterBuffer(s1, Asking(9), GRANT, None).state;
    RegisterBufferIsStep(System(s1, map[]), Asking(9), GRANT, None);
    BeginsForFabric(s1);
    SoundEnd(r);
    ReusedIdMisleadsBegin(s1, 7, FABRIC, RUN, Asking(9), GRANT);
    r := Extend(r, DoRegisterBuffer(Asking(9), GRANT, None), System(s2, map[]));
    BeginTransferIsStep(System(s2, map[]), 7, FABRIC, RUN);
    BegunIsFiled(s2, 7, FABRIC, RUN);
    r := Extend(r, DoBeginTransfer(7, FABRIC, RUN), System(BeginTransfer(s2, 7, FABRIC, RUN).state, map[]));
    IdIsTaken(r, s1);
    assert r.actions == ReuseScript();
    assert r.states[11].st == s2;
    assert 7 in s2.plans && s2.plans[7] == p;
    assert exists k :: k in r.states[12].st.attempts && r.states[12].st.attempts[k].planId == 7;
  }

  lemma SoundEnd(r: Run)
    requires IsFreshRun(r)
    ensures Inv(r.states[|r.states| - 1].st)
  {
    hide StepAt, Inv;
    var epoch: nat :| r.states[0] == System(InitialState(epoch), map[]);
    InitialStateSound(epoch);
    ReachesSound(r, |r.states| - 1);
  }

  lemma BegunIsFiled(s: State, planId: nat, caller: Authority, run: BackendRun)
    requires BeginTransfer(s, planId, caller, run).reply.Ok? && planId in s.plans && s.plans[planId].id == planId
    ensures
      var s' := BeginTransfer(s, planId, caller, run).state;
      s.nextId + 1 in s'.attempts && s'.attempts[s.nextId + 1].planId == planId
  {
    hide LeavesGrants, LeavesWorkers, BeginRejection;
  }

  lemma IdIsTaken(r: Run, s: State)
    requires |r.states| == |r.actions| + 1 && |r.actions| == 12
    requires r.states[10].st == s && r.actions[10] == DoRegisterBuffer(Asking(9), GRANT, None)
    requires s.registrations == map[100 := GRANTED] && RegisterRejection(s, Asking(9)).None?
    ensures !HasFreshIds(r)
  {
    hide RegisterRejection;
    assert !TakesFreshId(r.states[10], r.actions[10]);
  }
}
