/** The coordinator in service: the object together with the planning calls that are between their two halves.
    Every request served is a step of the protocol, so what is proved of runs holds of the object. */
module Service {
  import opened Types
  import opened PathPlanner
  import opened CoordinatorModel
  import opened Protocol
  import opened Invariants
  import opened Runs
  import opened Operations
  import Coordinator
  import Model = CoordinatorModel

  /** A request, with what the backend will answer. */
  datatype Call =
    | AskSetLimits(limits: Limits)
    | AskRegisterWorker(worker: nat, boot: nat, epoch: nat)
    | AskMarkWorkerDead(worker: nat)
    | AskAdvanceEpoch
    | AskCreateBuffer(buffer: BufferParams)
    | AskAdvanceBuffer(id: nat, caller: Authority)
    | AskRetireBuffer(id: nat, caller: Authority)
    | AskAddDevice(device: DeviceParams)
    | AskAddEndpoint(endpoint: EndpointParams)
    | AskAdvanceEndpoint(id: nat, caller: Authority)
    | AskSetEndpointHealth(id: nat, healthy: bool, caller: Authority)
    | AskAddNic(nic: Nic)
    | AskAddStorage(storage: StorageEndpoint)
    | AskAddProvider(provider: ProviderParams)
    | AskPublishCapability(capability: CapabilityParams)
    | AskRevokeCapability(providerName: Text, capabilityName: Text, caller: Authority)
    | AskRegisterBuffer(registration: RegisterParams, grant: BackendGrant)
    | AskDeregisterBuffer(id: nat, caller: Authority)
    | AskEvaluate(request: Request)
    | AskCommit(pending: nat, explanation: Text)
    | AskBeginTransfer(plan: nat, caller: Authority, run: BackendRun)
    | AskCompleteTransfer(id: nat, caller: Authority)
    | AskCancelTransfer(id: nat, caller: Authority)
    | AskVerifyTransfer(id: nat, passed: bool, bytesChecked: nat)

  predicate IsUpkeep(c: Call) {
    c.AskSetLimits? || c.AskRegisterWorker? || c.AskMarkWorkerDead? || c.AskAdvanceEpoch? || c.AskCreateBuffer? ||
    c.AskAdvanceBuffer? || c.AskRetireBuffer? || c.AskAddDevice? || c.AskAddEndpoint? || c.AskAdvanceEndpoint? ||
    c.AskSetEndpointHealth? || c.AskAddNic? || c.AskAddStorage?
  }

  class Session {
    const coordinator: Coordinator.Coordinator
    var calls: map<nat, PlanCall>
    var nextCall: nat

    ghost predicate Valid() reads this { forall k :: k in calls ==> k < nextCall }

    ghost function Sys(): System reads this, coordinator { System(coordinator.state, calls) }

    constructor (epoch: nat)
      ensures Valid() && fresh(coordinator) && Sys() == System(InitialState(epoch), map[])
    {
      coordinator := new Coordinator.Coordinator(epoch);
      calls, nextCall := map[], 0;
    }

    method Maintain(c: Call) returns (ghost a: Action)
      requires IsUpkeep(c)
      modifies coordinator
      ensures IsStep(old(Sys()), a, Sys())
    {
      hide IsStep, RegisterWorker, MarkWorkerDead, AdvanceEpoch, CreateBuffer, AdvanceBufferGeneration, RetireBuffer;
      hide AddDevice, AddEndpoint, AdvanceEndpointGeneration, SetEndpointHealth, AddNic, AddStorage;
      hide LeavesGrants, LeavesWorkers;
      ghost var sys := Sys();
      match c {
        case AskSetLimits(limits) =>
          coordinator.SetLimits(limits);
          a := DoSetLimits(limits);
          SetLimitsIsStep(sys, limits);
        case AskRegisterWorker(w, boot, epoch) =>
          var _ := coordinator.RegisterWorker(w, boot, epoch);
          a := DoRegisterWorker(w, boot, epoch);
          RegisterWorkerIsStep(sys, w, boot, epoch);
        case AskMarkWorkerDead(w) =>
          coordinator.MarkWorkerDead(w);
          a := DoMarkWorkerDead(w);
          MarkWorkerDeadIsStep(sys, w);
        case AskAdvanceEpoch =>
          coordinator.AdvanceEpoch();
          a := DoAdvanceEpoch;
          AdvanceEpochIsStep(sys);
        case AskCreateBuffer(p) =>
          var _ := coordinator.CreateBuffer(p);
          a := DoCreateBuffer(p);
          CreateBufferIsStep(sys, p);
        case AskAdvanceBuffer(id, caller) =>
          var _ := coordinator.AdvanceBufferGeneration(id, caller);
          a := DoAdvanceBuffer(id, caller);
          AdvanceBufferIsStep(sys, id, caller);
        case AskRetireBuffer(id, caller) =>
          var _ := coordinator.RetireBuffer(id, caller);
          a := DoRetireBuffer(id, caller);
          RetireBufferIsStep(sys, id, caller);
        case AskAddDevice(p) =>
          var _ := coordinator.AddDevice(p);
          a := DoAddDevice(p);
          AddDeviceIsStep(sys, p);
        case AskAddEndpoint(p) =>
          var _ := coordinator.AddEndpoint(p);
          a := DoAddEndpoint(p);
          AddEndpointIsStep(sys, p);
        case AskAdvanceEndpoint(id, caller) =>
          var _ := coordinator.AdvanceEndpointGeneration(id, caller);
          a := DoAdvanceEndpoint(id, caller);
          AdvanceEndpointIsStep(sys, id, caller);
        case AskSetEndpointHealth(id, healthy, caller) =>
          var _ := coordinator.SetEndpointHealth(id, healthy, caller);
          a := DoSetEndpointHealth(id, healthy, caller);
          SetEndpointHealthIsStep(sys, id, healthy, caller);
        case AskAddNic(n) =>
          coordinator.AddNic(n);
          a := DoAddNic(n);
          AddNicIsStep(sys, n);
        case AskAddStorage(e) =>
          coordinator.AddStorage(e);
          a := DoAddStorage(e);
          AddStorageIsStep(sys, e);
        case _ =>
      }
    }

    method Publish(c: Call) returns (ghost a: Action)
      requires c.AskAddProvider? || c.AskPublishCapability? || c.AskRevokeCapability?
      modifies coordinator
      ensures IsStep(old(Sys()), a, Sys())
    {
      hide IsStep, AddProvider, PublishCapability, RevokeCapability, IsNamed, IsObservation, LeavesGrants;
      hide LeavesWorkers;
      ghost var sys := Sys();
      if c.AskAddProvider? {
        var _, slot := coordinator.AddProvider(c.provider);
        a := DoAddProvider(c.provider, slot);
        AddProviderIsStep(sys, c.provider, slot);
      } else if c.AskPublishCapability? {
        var _, slot := coordinator.PublishCapability(c.capability);
        a := DoPublishCapability(c.capability, slot);
        PublishCapabilityIsStep(sys, c.capability, slot);
      } else {
        var _, slot := coordinator.RevokeCapability(c.providerName, c.capabilityName, c.caller);
        a := DoRevokeCapability(c.providerName, c.capabilityName, c.caller, slot);
        RevokeCapabilityIsStep(sys, c.providerName, c.capabilityName, c.caller, slot);
      }
    }

    method Grant(c: Call) returns (ghost a: Action)
      requires c.AskRegisterBuffer? || c.AskDeregisterBuffer?
      modifies coordinator
      ensures IsStep(old(Sys()), a, Sys())
    {
      hide IsStep, RegisterBuffer, DeregisterBuffer, IsLatest, LeavesWorkers;
      ghost var sys := Sys();
      if c.AskRegisterBuffer? {
        var _, latest := coordinator.RegisterBuffer(c.registration, c.grant);
        a := DoRegisterBuffer(c.registration, c.grant, latest);
        RegisterBufferIsStep(sys, c.registration, c.grant, latest);
      } else {
        var _, latest := coordinator.DeregisterBuffer(c.id, c.caller);
        a := DoDeregisterBuffer(c.id, c.caller, latest);
        DeregisterBufferIsStep(sys, c.id, c.caller, latest);
      }
    }

    /** The first half of planning: the decision is kept until its commit. */
    method EvaluatePath(req: Request) returns (ghost a: Action)
      requires Valid()
      modifies this
      ensures Valid() && IsStep(old(Sys()), a, Sys())
    {
      hide IsStep, IsEvidence, Decide, Inv;
      ghost var sys := Sys();
      var d, ev := coordinator.EvaluatePath(req);
      a := DoSnapshot(nextCall, req, ev);
      SnapshotIsStep(sys, nextCall, req, ev);
      calls, nextCall := calls[nextCall := PlanCall(req, d)], nextCall + 1;
    }

    /** The second half. */
    method CommitPlan(pending: nat, explanation: Text) returns (ghost a: Action)
      requires Valid() && pending in calls
      modifies this, coordinator
      ensures Valid() && IsStep(old(Sys()), a, Sys())
    {
      hide IsStep, Model.CommitPlan, IsLatest, RegisteredOnly, LeavesWorkers;
      ghost var sys := Sys();
      var call := calls[pending];
      var _, chosen := coordinator.CommitPlan(call.request, call.decision, explanation);
      a := DoCommitPlan(pending, chosen, explanation);
      CommitPlanIsStep(sys, pending, chosen, explanation);
      calls := calls - {pending};
    }

    method Transfer(c: Call) returns (ghost a: Action)
      requires c.AskBeginTransfer? || c.AskCompleteTransfer? || c.AskCancelTransfer? || c.AskVerifyTransfer?
      modifies coordinator
      ensures IsStep(old(Sys()), a, Sys())
    {
      hide IsStep, BeginTransfer, CompleteTransfer, CancelTransfer, VerifyTransfer, LeavesGrants, LeavesWorkers;
      ghost var sys := Sys();
      if c.AskBeginTransfer? {
        var _ := coordinator.BeginTransfer(c.plan, c.caller, c.run);
        a := DoBeginTransfer(c.plan, c.caller, c.run);
        BeginTransferIsStep(sys, c.plan, c.caller, c.run);
      } else if c.AskCompleteTransfer? {
        var _ := coordinator.CompleteTransfer(c.id, c.caller);
        a := DoCompleteTransfer(c.id, c.caller);
        CompleteTransferIsStep(sys, c.id, c.caller);
      } else if c.AskCancelTransfer? {
        var _ := coordinator.CancelTransfer(c.id, c.caller);
        a := DoCancelTransfer(c.id, c.caller);
        CancelTransferIsStep(sys, c.id, c.caller);
      } else {
        var _ := coordinator.VerifyTransfer(c.id, c.passed, c.bytesChecked);
        a := DoVerifyTransfer(c.id, c.passed, c.bytesChecked);
        VerifyTransferIsStep(sys, c.id, c.passed, c.bytesChecked);
      }
    }

    /** Whatever is asked, the object takes a step of the protocol, keeps its state sound and obeys the laws. A
        commit must name a decision that is waiting for it. */
    method Serve(c: Call) returns (ghost a: Action)
      requires Valid() && (c.AskCommit? ==> c.pending in calls)
      modifies this, coordinator
      ensures Valid() && IsStep(old(Sys()), a, Sys())
      ensures Inv(old(Sys()).st) ==> Inv(Sys().st) && Evolves(old(Sys()).st, Sys().st)
    {
      hide IsStep, Inv, Evolves;
      ghost var sys := Sys();
      if IsUpkeep(c) {
        a := Maintain(c);
      } else if c.AskAddProvider? || c.AskPublishCapability? || c.AskRevokeCapability? {
        a := Publish(c);
      } else if c.AskRegisterBuffer? || c.AskDeregisterBuffer? {
        a := Grant(c);
      } else if c.AskEvaluate? {
        a := EvaluatePath(c.request);
      } else if c.AskCommit? {
        a := CommitPlan(c.pending, c.explanation);
      } else {
        a := Transfer(c);
      }
      if Inv(sys.st) { StepIsLawful(sys, a, Sys()); }
    }
  }

  /** A new coordinator that serves any sequence of requests goes through a run, and ends in its last state.
      Commits of decisions that nobody is waiting for are skipped. */
  method ServeAll(epoch: nat, requests: seq<Call>) returns (session: Session, ghost r: Run)
    ensures session.Valid() && IsFreshRun(r) && r.states[|r.states| - 1] == session.Sys()
  {
    hide IsStep, Inv, Evolves;
    session := new Session(epoch);
    r := Run([session.Sys()], []);
    for i := 0 to |requests|
      invariant session.Valid() && fresh(session) && fresh(session.coordinator)
      invariant IsFreshRun(r) && r.states[|r.states| - 1] == session.Sys()
    {
      var c := requests[i];
      if c.AskCommit? ==> c.pending in session.calls {
        ghost var a := session.Serve(c);
        RunExtends(r, a, session.Sys());
        r := Run(r.states + [session.Sys()], r.actions + [a]);
      }
    }
  }
}
