/** Runs of the coordinator: every public operation is one atomic step, except planning,
    which takes a snapshot and commits later with any steps of other callers in between. */
module Protocol {
  import opened Types
  import opened PathPlanner
  import opened CoordinatorModel

  datatype PlanCall = PlanCall(request: Request, decision: Decision)

  /** The coordinator together with the planning calls that are between their two halves. */
  datatype System = System(st: State, calls: map<nat, PlanCall>)

  datatype Action =
    | DoSetLimits(limits: Limits)
    | DoRegisterWorker(worker: nat, boot: nat, epoch: nat)
    | DoMarkWorkerDead(worker: nat)
    | DoAdvanceEpoch
    | DoCreateBuffer(buffer: BufferParams)
    | DoAdvanceBuffer(id: nat, caller: Authority)
    | DoRetireBuffer(id: nat, caller: Authority)
    | DoAddDevice(device: DeviceParams)
    | DoAddEndpoint(endpoint: EndpointParams)
    | DoAdvanceEndpoint(id: nat, caller: Authority)
    | DoSetEndpointHealth(id: nat, healthy: bool, caller: Authority)
    | DoAddNic(nic: Nic)
    | DoAddStorage(storage: StorageEndpoint)
    | DoAddProvider(provider: ProviderParams, slot: Option<nat>)
    | DoPublishCapability(capability: CapabilityParams, slot: Option<nat>)
    | DoRevokeCapability(providerName: Text, capabilityName: Text, caller: Authority, slot: Option<nat>)
    | DoRegisterBuffer(registration: RegisterParams, grant: BackendGrant, latest: Option<nat>)
    | DoDeregisterBuffer(id: nat, caller: Authority, latest: Option<nat>)
    | DoSnapshot(call: nat, request: Request, evidence: Evidence)
    | DoCommitPlan(call: nat, chosen: Option<nat>, explanation: Text)
    | DoBeginTransfer(plan: nat, caller: Authority, run: BackendRun)
    | DoCompleteTransfer(id: nat, caller: Authority)
    | DoCancelTransfer(id: nat, caller: Authority)
    | DoVerifyTransfer(id: nat, passed: bool, bytesChecked: nat)

  /** The action's table choices are ones the program could make in this state. */
  ghost predicate Enabled(sys: System, a: Action) {
    var s := sys.st;
    match a
    case DoAddProvider(p, slot) => IsNamed(s.providers, p.name, slot)
    case DoPublishCapability(p, slot) => IsObservation(s.capabilities, p.provider, p.capability, slot)
    case DoRevokeCapability(p, c, caller, slot) => IsObservation(s.capabilities, p, c, slot)
    case DoRegisterBuffer(p, grant, latest) => IsLatest(s.registrations, p.buffer, p.endpoint, latest)
    case DoDeregisterBuffer(id, caller, latest) =>
      id in s.registrations ==>
        IsLatest(s.registrations, s.registrations[id].buffer, s.registrations[id].endpoint, latest)
    case DoSnapshot(call, req, ev) => call !in sys.calls && IsEvidence(s, req, ev)
    case DoCommitPlan(call, chosen, explanation) =>
      call in sys.calls &&
      var req := sys.calls[call].request;
      (req.source in s.buffers && req.destination in s.endpoints ==>
         IsLatest(RegisteredOnly(s.registrations), s.buffers[req.source].id, s.endpoints[req.destination].id, chosen))
    case _ => true
  }

  ghost function NextState(sys: System, a: Action): State
    requires Enabled(sys, a)
  {
    var s := sys.st;
    match a
    case DoSetLimits(limits) => s.(limits := limits)
    case DoRegisterWorker(w, boot, epoch) => RegisterWorker(s, w, boot, epoch).state
    case DoMarkWorkerDead(w) => MarkWorkerDead(s, w)
    case DoAdvanceEpoch => AdvanceEpoch(s)
    case DoCreateBuffer(p) => CreateBuffer(s, p).state
    case DoAdvanceBuffer(id, caller) => AdvanceBufferGeneration(s, id, caller).state
    case DoRetireBuffer(id, caller) => RetireBuffer(s, id, caller).state
    case DoAddDevice(p) => AddDevice(s, p).state
    case DoAddEndpoint(p) => AddEndpoint(s, p).state
    case DoAdvanceEndpoint(id, caller) => AdvanceEndpointGeneration(s, id, caller).state
    case DoSetEndpointHealth(id, healthy, caller) => SetEndpointHealth(s, id, healthy, caller).state
    case DoAddNic(n) => AddNic(s, n)
    case DoAddStorage(e) => AddStorage(s, e)
    case DoAddProvider(p, slot) => AddProvider(s, p, slot).state
    case DoPublishCapability(p, slot) => PublishCapability(s, p, slot).state
    case DoRevokeCapability(p, c, caller, slot) => RevokeCapability(s, p, c, caller, slot).state
    case DoRegisterBuffer(p, grant, latest) => RegisterBuffer(s, p, grant, latest).state
    case DoDeregisterBuffer(id, caller, latest) => DeregisterBuffer(s, id, caller, latest).state
    case DoSnapshot(call, req, ev) => s
    case DoCommitPlan(call, chosen, explanation) =>
      CommitPlan(s, sys.calls[call].request, sys.calls[call].decision, chosen, explanation).state
    case DoBeginTransfer(plan, caller, run) => BeginTransfer(s, plan, caller, run).state
    case DoCompleteTransfer(id, caller) => CompleteTransfer(s, id, caller).state
    case DoCancelTransfer(id, caller) => CancelTransfer(s, id, caller).state
    case DoVerifyTransfer(id, passed, bytes) => VerifyTransfer(s, id, passed, bytes).state
  }

  ghost function NextCalls(sys: System, a: Action): map<nat, PlanCall> {
    match a
    case DoSnapshot(call, req, ev) => sys.calls[call := PlanCall(req, Decide(req, ev))]
    case DoCommitPlan(call, chosen, explanation) => sys.calls - {call}
    case _ => sys.calls
  }

  ghost function Next(sys: System, a: Action): System
    requires Enabled(sys, a)
  {
    System(NextState(sys, a), NextCalls(sys, a))
  }

  // ---------------------------------------------------------------------
  // Runs
  // ---------------------------------------------------------------------

  datatype Run = Run(states: seq<System>, actions: seq<Action>)

  ghost predicate IsRun(r: Run) {
    && |r.states| == |r.actions| + 1
    && forall i :: 0 <= i < |r.actions| ==> StepAt(r, i)
  }

  ghost predicate StepAt(r: Run, i: nat)
    requires |r.states| == |r.actions| + 1 && i < |r.actions|
  {
    IsStep(r.states[i], r.actions[i], r.states[i + 1])
  }

  ghost predicate IsStep(sys: System, a: Action, sys': System) {
    Enabled(sys, a) && sys' == Next(sys, a)
  }

  /** A run of a newly constructed coordinator. */
  ghost predicate IsFreshRun(r: Run) {
    IsRun(r) && exists epoch: nat :: r.states[0] == System(InitialState(epoch), map[])
  }
}
