/** When an operation on workers, objects and evidence is admitted, and all that it changes, written out in terms
    of the tables. */
module FabricAnswers {
  import opened Types
  import opened CoordinatorModel
  import opened Invariants
  import opened Fencing

  // ---------------------------------------------------------------------
  // Workers
  // ---------------------------------------------------------------------

  /** The highest boot on record, 0 if there is none. */
  function Record(s: State, w: nat): nat { if w in s.maxBoot then s.maxBoot[w] else 0 }

  /** A worker registers exactly in the current epoch, under an id of its own, with a boot above everything on record
      or, while it is live, equal to it, or with any boot as long as nothing above 0 is on record. It is then live at
      that boot, which is on record, and no other worker is touched. */
  lemma RegisterWorkerAnswer(s: State, w: nat, boot: nat, epoch: nat)
    requires Inv(s)
    ensures
      var step := RegisterWorker(s, w, boot, epoch);
      && (step.reply.Ok? <==>
            && epoch == s.epoch && w != 0
            && (boot > Record(s, w) || (boot == Record(s, w) && w in s.workers) || Record(s, w) == 0))
      && (step.reply == Err(StaleEpoch) <==> epoch != s.epoch)
      && (step.reply == Err(InvalidArgument) <==> epoch == s.epoch && w == 0)
      && (step.reply.Err? && epoch == s.epoch && w != 0 ==> step.reply == Err(StaleBoot))
      && (step.reply.Err? ==> step.state == s)
      && (step.reply.Ok? ==>
            step.state == s.(workers := s.workers[w := boot], maxBoot := s.maxBoot[w := boot]))
  {
    hide BuffersSound, EndpointsSound, DevicesSound, CapabilitiesSound, InventorySound;
    hide RegistrationsSound, RegisteredSound, PlansSound, LedgerSound, LeavesGrants;
    if w in s.workers && s.workers[w] == boot {
      assert s.workers[w := boot] == s.workers && s.maxBoot[w := boot] == s.maxBoot;
    }
  }

  /** A death takes the worker off the table and marks exactly what its incarnations had registered. */
  lemma MarkWorkerDeadAnswer(s: State, w: nat)
    ensures
      var s' := MarkWorkerDead(s, w);
      && (forall v :: v in s'.workers <==> v in s.workers && v != w)
      && (forall v :: v in s'.workers ==> s'.workers[v] == s.workers[v])
      && s' == s.(workers := s'.workers, registrations := s'.registrations)
  {
    hide Revalidate;
  }

  ghost predicate IsActive(r: Registration) { r.state.Registered? || r.state.Registering? }

  /** A new epoch leaves nobody live, takes every plan's authority and marks every active registration. */
  lemma AdvanceEpochAnswer(s: State)
    ensures
      var s' := AdvanceEpoch(s);
      && s'.epoch == s.epoch + 1 && s'.workers == map[]
      && s' == s.(epoch := s'.epoch, workers := s'.workers, registrations := s'.registrations, plans := s'.plans)
      && (forall k :: k in s.registrations && !IsActive(s.registrations[k]) ==>
            k in s'.registrations && s'.registrations[k] == s.registrations[k])
  {
    EpochFrame(s);
    EpochSparesOthers(s);
  }

  lemma EpochFrame(s: State)
    ensures
      var s' := AdvanceEpoch(s);
      && s'.epoch == s.epoch + 1 && s'.workers == map[]
      && s' == s.(epoch := s'.epoch, workers := s'.workers, registrations := s'.registrations, plans := s'.plans)
  {
    hide Revalidate, Supersede;
  }

  lemma EpochSparesOthers(s: State)
    ensures forall k :: k in s.registrations && !IsActive(s.registrations[k]) ==>
              k in AdvanceEpoch(s).registrations && AdvanceEpoch(s).registrations[k] == s.registrations[k]
  {
    hide Supersede;
  }

  // ---------------------------------------------------------------------
  // Objects
  // ---------------------------------------------------------------------

  /** Nobody in particular, or a worker incarnation that is here. */
  ghost predicate MayOwn(s: State, owner: Authority) { owner.worker != 0 ==> IsHere(s, owner) }

  /** A buffer is created exactly with an alignment if it has a size, while there is room, for an owner that is here;
      it is new, active, unregistered and of generation 1, as asked for. */
  lemma CreateBufferAnswer(s: State, p: BufferParams)
    ensures
      var step := CreateBuffer(s, p);
      && (step.reply.Ok? <==>
            (p.size > 0 ==> p.alignment > 0) && |s.buffers| < s.limits.buffers && MayOwn(s, p.authority))
      && (step.reply == Err(InvalidArgument) <==> p.size > 0 && p.alignment == 0)
      && (step.reply == Err(ResourceLimit) <==> (p.size > 0 ==> p.alignment > 0) && |s.buffers| >= s.limits.buffers)
      && (step.reply.Err? ==>
            step.state == s && step.reply.code in {InvalidArgument, ResourceLimit, StaleBoot})
      && (step.reply.Ok? ==>
            var b := step.reply.value;
            && b.id == s.nextId + 1 && b.generation == 1 && b.lifecycle.Active? && b.registrationState.Unregistered?
            && b.registrationId == 0 && b.registrationGeneration == 0 && b.deviceGeneration == 0
            && b.authority == p.authority && b.domain == p.domain && b.size == p.size && b.alignment == p.alignment
            && b.device == p.device && b.locality == p.locality && b.support == p.support
            && b.provenance == p.provenance && b.name == p.name && b.freshness == s.freshness + 1
            && step.state == s.(nextId := s.nextId + 1, freshness := s.freshness + 1,
                                buffers := s.buffers[s.nextId + 1 := b]))
  {
    hide LeavesGrants, LeavesWorkers;
  }

  lemma AddDeviceAnswer(s: State, p: DeviceParams)
    ensures
      var step := AddDevice(s, p);
      && (step.reply.Ok? <==> MayOwn(s, p.authority)) && (step.reply.Err? ==> step == Step(s, Err(StaleBoot)))
      && (step.reply.Ok? ==>
            var d := step.reply.value;
            && d.id == s.nextId + 1 && d.generation == 1 && d.name == p.name
            && d.computeCapability == p.computeCapability && d.peerMemorySupported == p.peerMemorySupported
            && d.support == p.support && d.provenance == p.provenance && d.authority == p.authority
            && step.state == s.(nextId := s.nextId + 1, freshness := s.freshness + 1,
                                devices := s.devices[s.nextId + 1 := d]))
  {
    hide LeavesGrants, LeavesWorkers;
  }

  lemma AddEndpointAnswer(s: State, p: EndpointParams)
    ensures
      var step := AddEndpoint(s, p);
      && (step.reply.Ok? <==> |s.endpoints| < s.limits.endpoints && MayOwn(s, p.authority))
      && (step.reply == Err(ResourceLimit) <==> |s.endpoints| >= s.limits.endpoints)
      && (step.reply.Err? ==> step.state == s && step.reply.code in {ResourceLimit, StaleBoot})
      && (step.reply.Ok? ==>
            var e := step.reply.value;
            && e.id == s.nextId + 1 && e.generation == 1 && e.endpointClass == p.endpointClass && e.name == p.name
            && e.topologyHint == p.topologyHint && e.healthy == p.healthy && e.provider == p.provider
            && e.support == p.support && e.provenance == p.provenance && e.authority == p.authority
            && step.state == s.(nextId := s.nextId + 1, freshness := s.freshness + 1,
                                endpoints := s.endpoints[s.nextId + 1 := e]))
  {
    hide LeavesGrants, LeavesWorkers;
  }

  lemma SetEndpointHealthAnswer(s: State, e: nat, healthy: bool, caller: Authority)
    ensures
      var step := SetEndpointHealth(s, e, healthy, caller);
      && (step.reply.Ok? <==> e in s.endpoints && MayManage(s, s.endpoints[e].authority, caller))
      && (step.reply.Err? ==>
            step.state == s && step.reply.code == if e in s.endpoints then StaleBoot else NotFound)
      && (step.reply.Ok? ==>
            && e in step.state.endpoints && step.state.endpoints[e].healthy == healthy
            && step.state.endpoints[e].generation == s.endpoints[e].generation
            && step.state == s.(freshness := s.freshness + 1,
                                endpoints := s.endpoints[e := s.endpoints[e].(healthy := healthy,
                                                                              freshness := s.freshness + 1)]))
  {
    hide LeavesGrants, LeavesWorkers;
  }

  /** An inventory record keeps the id it brings, or gets the next one; generation 0 becomes 1. */
  lemma AddNicAnswer(s: State, n: Nic)
    ensures
      var id := if n.id != 0 then n.id else s.nextId + 1;
      var filed := n.(id := id, generation := if n.generation == 0 then 1 else n.generation,
                      freshness := s.freshness + 1);
      AddNic(s, n) == s.(nextId := if n.id != 0 then s.nextId else id, freshness := s.freshness + 1,
                         nics := s.nics[id := filed])
  {
    hide LeavesGrants, LeavesWorkers;
  }

  lemma AddStorageAnswer(s: State, e: StorageEndpoint)
    ensures
      var id := if e.id != 0 then e.id else s.nextId + 1;
      var filed := e.(id := id, generation := if e.generation == 0 then 1 else e.generation,
                      freshness := s.freshness + 1);
      AddStorage(s, e) == s.(nextId := if e.id != 0 then s.nextId else id, freshness := s.freshness + 1,
                             storage := s.storage[id := filed])
  {
    hide LeavesGrants, LeavesWorkers;
  }

  // ---------------------------------------------------------------------
  // Evidence
  // ---------------------------------------------------------------------

  /** A provider needs a name. Its entry is updated if there is one, and there is one afterwards that says what was
      asked for. */
  lemma AddProviderAnswer(s: State, p: ProviderParams, slot: Option<nat>)
    requires IsNamed(s.providers, p.name, slot)
    ensures
      var step := AddProvider(s, p, slot);
      && (step.reply.Ok? <==> p.name != []) && (step.reply.Err? ==> step == Step(s, Err(InvalidArgument)))
      && (step.reply.Ok? ==>
            var key := if slot.Some? then slot.value else s.nextId + 1;
            var v := step.reply.value;
            && v.name == p.name && v.available == p.available && v.support == p.support && v.provenance == p.provenance
            && v.id == (if slot.Some? then s.providers[key].id else key)
            && step.state == s.(nextId := if slot.Some? then s.nextId else key, providers := s.providers[key := v]))
  {
    hide LeavesGrants, LeavesWorkers;
  }

  /** An observation is published exactly by who is here, under a new id, in the slot of the one it replaces. */
  lemma PublishCapabilityAnswer(s: State, p: CapabilityParams, slot: Option<nat>)
    requires IsObservation(s.capabilities, p.provider, p.capability, slot)
    ensures
      var step := PublishCapability(s, p, slot);
      && (step.reply.Ok? <==> MayOwn(s, p.authority)) && (step.reply.Err? ==> step == Step(s, Err(StaleBoot)))
      && (step.reply.Ok? ==>
            var key := if slot.Some? then slot.value else s.nextId + 1;
            var c := step.reply.value;
            && c.id == s.nextId + 1 && c.provider == p.provider && c.capability == p.capability && c.value == p.value
            && c.support == p.support && c.provenance == p.provenance && c.authority == p.authority
            && c.freshness == s.freshness + 1
            && step.state == s.(nextId := s.nextId + 1, freshness := s.freshness + 1,
                                capabilities := s.capabilities[key := c]))
  {
    hide LeavesGrants, LeavesWorkers;
  }

  /** An observation goes exactly when who published it, if a worker, takes it back while here; revoking what is not
      there changes nothing. */
  lemma RevokeCapabilityAnswer(s: State, provider: Text, capability: Text, caller: Authority, slot: Option<nat>)
    requires IsObservation(s.capabilities, provider, capability, slot)
    ensures
      var step := RevokeCapability(s, provider, capability, caller, slot);
      && (step.reply.Ok? <==> slot.None? || MayManage(s, s.capabilities[slot.value].authority, caller))
      && (step.reply.Err? ==> step == Step(s, Err(StaleBoot)))
      && (step.reply.Ok? ==>
            step.state == if slot.None? then s else s.(capabilities := s.capabilities - {slot.value}))
  {
    hide LeavesGrants, LeavesWorkers;
  }
}
