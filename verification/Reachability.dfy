/** Every step of every run keeps the invariants and obeys the laws. */
module Reachability {
  import opened Types
  import opened CoordinatorModel
  import opened Protocol
  import opened Invariants
  import opened Steps
  import opened TransferSteps

  lemma NothingFencedKeeps(s: State, s': State)
    requires Inv(s) && Quiet(s, s') && s'.devices == s.devices && s'.capabilities == s.capabilities
    requires InventorySound(s'.nics, s'.storage, s'.providers)
    ensures Keeps(s, s')
  {
    hide WorkersSound, BuffersSound, EndpointsSound, DevicesSound, CapabilitiesSound, InventorySound;
    hide RegistrationsSound;
    hide RegisteredSound, PlansSound, LedgerSound, Keeps;
    IdsGrow(s, s'.nextId);
    QuietStep(s, s');
  }

  lemma InventoryIsSound(s: State)
    requires Inv(s)
    ensures InventorySound(s.nics, s.storage, s.providers)
  {
    hide WorkersSound, BuffersSound, EndpointsSound, DevicesSound, CapabilitiesSound, RegistrationsSound;
    hide RegisteredSound, PlansSound, LedgerSound, InventorySound;
  }

  lemma AddProviderIsSound(s: State, p: ProviderParams, slot: Option<nat>)
    requires InventorySound(s.nics, s.storage, s.providers) && IsNamed(s.providers, p.name, slot)
    ensures
      var s' := AddProvider(s, p, slot).state;
      InventorySound(s'.nics, s'.storage, s'.providers)
  {
    var s' := AddProvider(s, p, slot).state;
    assert s' == s.(nextId := s'.nextId, providers := s'.providers);
  }

  lemma AddProviderIsQuiet(s: State, p: ProviderParams, slot: Option<nat>)
    requires IsNamed(s.providers, p.name, slot)
    ensures
      var s' := AddProvider(s, p, slot).state;
      Quiet(s, s') && s'.devices == s.devices && s'.capabilities == s.capabilities
  {
    hide IsNamed;
    var s' := AddProvider(s, p, slot).state;
    assert s' == s.(nextId := s'.nextId, providers := s'.providers) && s.nextId <= s'.nextId;
  }

  lemma AddProviderKeeps(s: State, p: ProviderParams, slot: Option<nat>)
    requires Inv(s) && IsNamed(s.providers, p.name, slot)
    ensures Keeps(s, AddProvider(s, p, slot).state)
  {
    hide Inv, Keeps, Quiet, AddProvider, InventorySound;
    InventoryIsSound(s);
    AddProviderIsSound(s, p, slot);
    AddProviderIsQuiet(s, p, slot);
    NothingFencedKeeps(s, AddProvider(s, p, slot).state);
  }

  lemma AddNicKeeps(s: State, n: Nic)
    requires Inv(s)
    ensures Keeps(s, AddNic(s, n))
  {
    hide Inv, Keeps;
    InventoryIsSound(s);
    NothingFencedKeeps(s, AddNic(s, n));
  }

  lemma AddStorageKeeps(s: State, e: StorageEndpoint)
    requires Inv(s)
    ensures Keeps(s, AddStorage(s, e))
  {
    hide Inv, Keeps;
    InventoryIsSound(s);
    NothingFencedKeeps(s, AddStorage(s, e));
  }

  lemma SetLimitsKeeps(s: State, limits: Limits)
    requires Inv(s)
    ensures Keeps(s, s.(limits := limits))
  {
    hide Inv, Keeps;
    InventoryIsSound(s);
    NothingFencedKeeps(s, s.(limits := limits));
  }

  /** Registration, planning and transfers, as against the upkeep of the fabric they depend on. */
  predicate IsTransferAction(a: Action) {
    a.DoRegisterBuffer? || a.DoDeregisterBuffer? || a.DoSnapshot? || a.DoCommitPlan? || a.DoBeginTransfer? ||
    a.DoCompleteTransfer? || a.DoCancelTransfer? || a.DoVerifyTransfer?
  }

  lemma CommitStepKeeps(sys: System, a: Action)
    requires Enabled(sys, a) && Inv(sys.st) && a.DoCommitPlan?
    ensures Keeps(sys.st, NextState(sys, a))
  {
    hide Inv, Keeps, IsLatest, RegisteredOnly, CommitPlan;
    CommitPlanKeeps(sys.st, sys.calls[a.call].request, sys.calls[a.call].decision, a.chosen, a.explanation);
  }

  lemma TransferStepKeeps(sys: System, a: Action)
    requires Enabled(sys, a) && Inv(sys.st) && IsTransferAction(a)
    ensures Keeps(sys.st, NextState(sys, a))
  {
    hide Inv, Keeps, IsLatest, IsEvidence, IsNamed, IsObservation, RegisteredOnly;
    hide RegisterWorker, MarkWorkerDead, AdvanceEpoch, CreateBuffer, AdvanceBufferGeneration, RetireBuffer, AddDevice;
    hide AddEndpoint, AdvanceEndpointGeneration, SetEndpointHealth, AddNic, AddStorage, AddProvider, PublishCapability;
    hide RevokeCapability, RegisterBuffer, DeregisterBuffer, CommitPlan, BeginTransfer, CompleteTransfer;
    hide CancelTransfer;
    hide VerifyTransfer;
    var s := sys.st;
    if a.DoRegisterBuffer? {
      RegisterBufferKeeps(s, a.registration, a.grant, a.latest);
    } else if a.DoDeregisterBuffer? {
      DeregisterBufferKeeps(s, a.id, a.caller, a.latest);
    } else if a.DoSnapshot? {
      NothingKeeps(s);
    } else if a.DoCommitPlan? {
      CommitStepKeeps(sys, a);
    } else if a.DoBeginTransfer? {
      BeginTransferKeeps(s, a.plan, a.caller, a.run);
    } else if a.DoCompleteTransfer? {
      CompleteTransferKeeps(s, a.id, a.caller);
    } else if a.DoCancelTransfer? {
      CancelTransferKeeps(s, a.id, a.caller);
    } else {
      VerifyTransferKeeps(s, a.id, a.passed, a.bytesChecked);
    }
  }

  lemma FabricStepKeeps(sys: System, a: Action)
    requires Enabled(sys, a) && Inv(sys.st) && !IsTransferAction(a)
    ensures Keeps(sys.st, NextState(sys, a))
  {
    hide Inv, Keeps, IsLatest, IsEvidence, IsNamed, IsObservation, RegisteredOnly;
    hide RegisterWorker, MarkWorkerDead, AdvanceEpoch, CreateBuffer, AdvanceBufferGeneration, RetireBuffer, AddDevice;
    hide AddEndpoint, AdvanceEndpointGeneration, SetEndpointHealth, AddNic, AddStorage, AddProvider, PublishCapability;
    hide RevokeCapability, RegisterBuffer, DeregisterBuffer, CommitPlan, BeginTransfer, CompleteTransfer;
    hide CancelTransfer;
    hide VerifyTransfer;
    var s := sys.st;
    if a.DoSetLimits? {
      SetLimitsKeeps(s, a.limits);
    } else if a.DoRegisterWorker? {
      RegisterWorkerKeeps(s, a.worker, a.boot, a.epoch);
    } else if a.DoMarkWorkerDead? {
      MarkWorkerDeadKeeps(s, a.worker);
    } else if a.DoAdvanceEpoch? {
      AdvanceEpochKeeps(s);
    } else if a.DoCreateBuffer? {
      CreateBufferKeeps(s, a.buffer);
    } else if a.DoAdvanceBuffer? {
      AdvanceBufferKeeps(s, a.id, a.caller);
    } else if a.DoRetireBuffer? {
      RetireBufferKeeps(s, a.id, a.caller);
    } else if a.DoAddDevice? {
      AddDeviceKeeps(s, a.device);
    } else if a.DoAddEndpoint? {
      AddEndpointKeeps(s, a.endpoint);
    } else if a.DoAdvanceEndpoint? {
      AdvanceEndpointKeeps(s, a.id, a.caller);
    } else if a.DoSetEndpointHealth? {
      SetEndpointHealthKeeps(s, a.id, a.healthy, a.caller);
    } else if a.DoAddNic? {
      AddNicKeeps(s, a.nic);
    } else if a.DoAddStorage? {
      AddStorageKeeps(s, a.storage);
    } else if a.DoAddProvider? {
      AddProviderKeeps(s, a.provider, a.slot);
    } else if a.DoPublishCapability? {
      PublishCapabilityKeeps(s, a.capability, a.slot);
    } else {
      RevokeCapabilityKeeps(s, a.providerName, a.capabilityName, a.caller, a.slot);
    }
  }

  /** The invariants are inductive, and the two-state laws hold across every step. */
  lemma StepKeeps(sys: System, a: Action)
    requires Enabled(sys, a) && Inv(sys.st)
    ensures Keeps(sys.st, NextState(sys, a))
  {
    hide Inv, Keeps, Enabled, NextState;
    if IsTransferAction(a) { TransferStepKeeps(sys, a); } else { FabricStepKeeps(sys, a); }
  }
}
