/** Each operation is the step of the protocol that bears its name. */
module Operations {
  import opened Types
  import opened PathPlanner
  import opened CoordinatorModel
  import opened Protocol

  lemma SetLimitsIsStep(sys: System, limits: Limits)
    ensures IsStep(sys, DoSetLimits(limits), sys.(st := sys.st.(limits := limits)))
  {
  }

  lemma RegisterWorkerIsStep(sys: System, worker: nat, boot: nat, epoch: nat)
    ensures IsStep(sys, DoRegisterWorker(worker, boot, epoch),
                   sys.(st := RegisterWorker(sys.st, worker, boot, epoch).state))
  {
    hide RegisterWorker;
  }

  lemma MarkWorkerDeadIsStep(sys: System, worker: nat)
    ensures IsStep(sys, DoMarkWorkerDead(worker), sys.(st := MarkWorkerDead(sys.st, worker)))
  {
    hide MarkWorkerDead;
  }

  lemma AdvanceEpochIsStep(sys: System)
    ensures IsStep(sys, DoAdvanceEpoch, sys.(st := AdvanceEpoch(sys.st)))
  {
    hide AdvanceEpoch;
  }

  lemma CreateBufferIsStep(sys: System, p: BufferParams)
    ensures IsStep(sys, DoCreateBuffer(p), sys.(st := CreateBuffer(sys.st, p).state))
  {
    hide CreateBuffer;
  }

  lemma AdvanceBufferIsStep(sys: System, id: nat, caller: Authority)
    ensures IsStep(sys, DoAdvanceBuffer(id, caller), sys.(st := AdvanceBufferGeneration(sys.st, id, caller).state))
  {
    hide AdvanceBufferGeneration;
  }

  lemma RetireBufferIsStep(sys: System, id: nat, caller: Authority)
    ensures IsStep(sys, DoRetireBuffer(id, caller), sys.(st := RetireBuffer(sys.st, id, caller).state))
  {
    hide RetireBuffer;
  }

  lemma AddDeviceIsStep(sys: System, p: DeviceParams)
    ensures IsStep(sys, DoAddDevice(p), sys.(st := AddDevice(sys.st, p).state))
  {
    hide AddDevice;
  }

  lemma AddEndpointIsStep(sys: System, p: EndpointParams)
    ensures IsStep(sys, DoAddEndpoint(p), sys.(st := AddEndpoint(sys.st, p).state))
  {
    hide AddEndpoint;
  }

  lemma AdvanceEndpointIsStep(sys: System, id: nat, caller: Authority)
    ensures IsStep(sys, DoAdvanceEndpoint(id, caller), sys.(st := AdvanceEndpointGeneration(sys.st, id, caller).state))
  {
    hide AdvanceEndpointGeneration;
  }

  lemma SetEndpointHealthIsStep(sys: System, id: nat, healthy: bool, caller: Authority)
    ensures IsStep(sys, DoSetEndpointHealth(id, healthy, caller),
                   sys.(st := SetEndpointHealth(sys.st, id, healthy, caller).state))
  {
    hide SetEndpointHealth;
  }

  lemma AddNicIsStep(sys: System, n: Nic)
    ensures IsStep(sys, DoAddNic(n), sys.(st := AddNic(sys.st, n)))
  {
    hide AddNic;
  }

  lemma AddStorageIsStep(sys: System, e: StorageEndpoint)
    ensures IsStep(sys, DoAddStorage(e), sys.(st := AddStorage(sys.st, e)))
  {
    hide AddStorage;
  }

  lemma AddProviderIsStep(sys: System, p: ProviderParams, slot: Option<nat>)
    requires IsNamed(sys.st.providers, p.name, slot)
    ensures IsStep(sys, DoAddProvider(p, slot), sys.(st := AddProvider(sys.st, p, slot).state))
  {
    hide AddProvider, IsNamed;
  }

  lemma PublishCapabilityIsStep(sys: System, p: CapabilityParams, slot: Option<nat>)
    requires IsObservation(sys.st.capabilities, p.provider, p.capability, slot)
    ensures IsStep(sys, DoPublishCapability(p, slot), sys.(st := PublishCapability(sys.st, p, slot).state))
  {
    hide PublishCapability, IsObservation;
  }

  lemma RevokeCapabilityIsStep(sys: System, provider: Text, capability: Text, caller: Authority, slot: Option<nat>)
    requires IsObservation(sys.st.capabilities, provider, capability, slot)
    ensures IsStep(sys, DoRevokeCapability(provider, capability, caller, slot),
                   sys.(st := RevokeCapability(sys.st, provider, capability, caller, slot).state))
  {
    hide RevokeCapability, IsObservation;
  }

  lemma RegisterBufferIsStep(sys: System, p: RegisterParams, grant: BackendGrant, latest: Option<nat>)
    requires IsLatest(sys.st.registrations, p.buffer, p.endpoint, latest)
    ensures IsStep(sys, DoRegisterBuffer(p, grant, latest), sys.(st := RegisterBuffer(sys.st, p, grant, latest).state))
  {
    hide RegisterBuffer, IsLatest;
  }

  lemma DeregisterBufferIsStep(sys: System, id: nat, caller: Authority, latest: Option<nat>)
    requires id in sys.st.registrations ==>
               IsLatest(sys.st.registrations, sys.st.registrations[id].buffer, sys.st.registrations[id].endpoint,
                        latest)
    ensures IsStep(sys, DoDeregisterBuffer(id, caller, latest),
                   sys.(st := DeregisterBuffer(sys.st, id, caller, latest).state))
  {
    hide DeregisterBuffer, IsLatest;
  }

  lemma BeginTransferIsStep(sys: System, plan: nat, caller: Authority, run: BackendRun)
    ensures IsStep(sys, DoBeginTransfer(plan, caller, run), sys.(st := BeginTransfer(sys.st, plan, caller, run).state))
  {
    hide BeginTransfer;
  }

  lemma CompleteTransferIsStep(sys: System, id: nat, caller: Authority)
    ensures IsStep(sys, DoCompleteTransfer(id, caller), sys.(st := CompleteTransfer(sys.st, id, caller).state))
  {
    hide CompleteTransfer;
  }

  lemma CancelTransferIsStep(sys: System, id: nat, caller: Authority)
    ensures IsStep(sys, DoCancelTransfer(id, caller), sys.(st := CancelTransfer(sys.st, id, caller).state))
  {
    hide CancelTransfer;
  }

  lemma VerifyTransferIsStep(sys: System, id: nat, passed: bool, bytesChecked: nat)
    ensures IsStep(sys, DoVerifyTransfer(id, passed, bytesChecked),
                   sys.(st := VerifyTransfer(sys.st, id, passed, bytesChecked).state))
  {
    hide VerifyTransfer;
  }

  lemma SnapshotIsStep(sys: System, call: nat, req: Request, ev: Evidence)
    requires call !in sys.calls && IsEvidence(sys.st, req, ev)
    ensures IsStep(sys, DoSnapshot(call, req, ev), sys.(calls := sys.calls[call := PlanCall(req, Decide(req, ev))]))
  {
    hide IsEvidence, Decide;
  }

  lemma CommitPlanIsStep(sys: System, call: nat, chosen: Option<nat>, explanation: Text)
    requires call in sys.calls
    requires
      var s, req := sys.st, sys.calls[call].request;
      req.source in s.buffers && req.destination in s.endpoints ==>
        IsLatest(RegisteredOnly(s.registrations), s.buffers[req.source].id, s.endpoints[req.destination].id, chosen)
    ensures
      var req, d := sys.calls[call].request, sys.calls[call].decision;
      IsStep(sys, DoCommitPlan(call, chosen, explanation),
             System(CommitPlan(sys.st, req, d, chosen, explanation).state, sys.calls - {call}))
  {
    hide CommitPlan, IsLatest, RegisteredOnly;
  }
}
