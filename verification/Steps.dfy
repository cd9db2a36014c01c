/** Every operation keeps the invariants and obeys the two-state laws. Table lemmas first; the lemma
    about each operation then puts them together with the definitions of the invariants out of sight. */
module Steps {
  import opened Types
  import opened CoordinatorModel
  import opened Invariants

  ghost predicate Keeps(s: State, s': State) { Inv(s') && Evolves(s, s') }

  // ---------------------------------------------------------------------
  // Tables that a step leaves alone
  // ---------------------------------------------------------------------

  lemma IdsGrow(s: State, n: nat)
    requires Inv(s) && s.nextId <= n
    ensures BuffersSound(s.buffers, n, s.epoch, s.maxBoot) && EndpointsSound(s.endpoints, n)
    ensures DevicesSound(s.devices, n) && CapabilitiesSound(s.capabilities, n)
    ensures PlansSound(s.plans, s.buffers, s.endpoints, s.epoch, n)
    ensures LedgerSound(s.plans, s.attempts, s.receipts, s.verifications, n)
  {
    hide RegistrationsSound, RegisteredSound, WorkersSound, PlanSound, AttemptSound, HasVerification, Seen;
  }

  lemma WorkersUnchanged(s: State, s': State)
    requires s'.epoch == s.epoch && s'.workers == s.workers && s'.maxBoot == s.maxBoot
    ensures WorkersEvolve(s, s')
  {
  }

  lemma BuffersUnchanged(s: State, s': State)
    requires s'.buffers == s.buffers
    ensures BuffersEvolve(s, s')
  {
  }

  lemma EndpointsUnchanged(s: State, s': State)
    requires s'.endpoints == s.endpoints
    ensures EndpointsEvolve(s, s')
  {
  }

  lemma PlansUnchanged(s: State, s': State)
    requires s'.plans == s.plans
    ensures PlansEvolve(s, s') && PlansAreBound(s, s')
  {
  }

  lemma LedgerUnchanged(s: State, s': State)
    requires Inv(s) && s'.attempts == s.attempts && s'.receipts == s.receipts
    ensures LedgerEvolves(s, s')
  {
    hide Live, Rightful;
    hide RegistrationsSound, RegisteredSound, WorkersSound, BuffersSound, EndpointsSound, DevicesSound;
    hide CapabilitiesSound, InventorySound, PlansSound, HasVerification, MayBegin, ReceiptFor;
  }

  /** The fenced tables and the ledger are as before. */
  ghost predicate Quiet(s: State, s': State) {
    && s.nextId <= s'.nextId && s'.epoch == s.epoch
    && s'.workers == s.workers && s'.maxBoot == s.maxBoot && s'.buffers == s.buffers
    && s'.endpoints == s.endpoints && s'.registrations == s.registrations && s'.plans == s.plans
    && s'.attempts == s.attempts && s'.receipts == s.receipts && s'.verifications == s.verifications
  }

  lemma QuietStep(s: State, s': State)
    requires Inv(s) && Quiet(s, s')
    requires DevicesSound(s'.devices, s'.nextId) && CapabilitiesSound(s'.capabilities, s'.nextId)
    requires InventorySound(s'.nics, s'.storage, s'.providers)
    ensures Keeps(s, s')
  {
    hide WorkersSound, BuffersSound, EndpointsSound, DevicesSound, CapabilitiesSound, InventorySound;
    hide RegistrationsSound;
    hide RegisteredSound, PlansSound, LedgerSound;
    hide WorkersEvolve, BuffersEvolve, EndpointsEvolve, PlansEvolve, PlansAreBound, LedgerEvolves;
    IdsGrow(s, s'.nextId);
    WorkersUnchanged(s, s');
    BuffersUnchanged(s, s');
    EndpointsUnchanged(s, s');
    PlansUnchanged(s, s');
    LedgerUnchanged(s, s');
  }

  // ---------------------------------------------------------------------
  // Devices and capabilities
  // ---------------------------------------------------------------------

  lemma DeviceAdded(devices: map<nat, Device>, n: nat, d: Device)
    requires DevicesSound(devices, n) && d.id == n + 1
    ensures DevicesSound(devices[n + 1 := d], n + 1)
  {
  }

  lemma AddDeviceKeeps(s: State, p: DeviceParams)
    requires Inv(s)
    ensures Keeps(s, AddDevice(s, p).state)
  {
    hide WorkersSound, BuffersSound, EndpointsSound, DevicesSound, CapabilitiesSound, InventorySound;
    hide RegistrationsSound;
    hide RegisteredSound, PlansSound, LedgerSound, Keeps, IsObservation;
    var step := AddDevice(s, p);
    if step.reply.Ok? { DeviceAdded(s.devices, s.nextId, step.reply.value); }
    IdsGrow(s, step.state.nextId);
    QuietStep(s, step.state);
  }

  lemma ObservationPublished(caps: map<nat, Capability>, n: nat, c: Capability, slot: Option<nat>)
    requires CapabilitiesSound(caps, n) && IsObservation(caps, c.provider, c.capability, slot) && c.id == n + 1
    ensures CapabilitiesSound(caps[(if slot.Some? then slot.value else n + 1) := c], n + 1)
  {
  }

  lemma PublishCapabilityKeeps(s: State, p: CapabilityParams, slot: Option<nat>)
    requires Inv(s) && IsObservation(s.capabilities, p.provider, p.capability, slot)
    ensures Keeps(s, PublishCapability(s, p, slot).state)
  {
    hide WorkersSound, BuffersSound, EndpointsSound, DevicesSound, CapabilitiesSound, InventorySound;
    hide RegistrationsSound;
    hide RegisteredSound, PlansSound, LedgerSound, Keeps, IsObservation;
    var step := PublishCapability(s, p, slot);
    if step.reply.Ok? { ObservationPublished(s.capabilities, s.nextId, step.reply.value, slot); }
    IdsGrow(s, step.state.nextId);
    QuietStep(s, step.state);
  }

  lemma ObservationRevoked(caps: map<nat, Capability>, n: nat, k: nat)
    requires CapabilitiesSound(caps, n)
    ensures CapabilitiesSound(caps - {k}, n)
  {
  }

  lemma DroppingObservationKeeps(s: State, k: nat)
    requires Inv(s)
    ensures Keeps(s, s.(capabilities := s.capabilities - {k}))
  {
    hide WorkersSound, BuffersSound, EndpointsSound, DevicesSound, CapabilitiesSound, InventorySound;
    hide RegistrationsSound;
    hide RegisteredSound, PlansSound, LedgerSound, Keeps;
    ObservationRevoked(s.capabilities, s.nextId, k);
    QuietStep(s, s.(capabilities := s.capabilities - {k}));
  }

  lemma NothingKeeps(s: State)
    requires Inv(s)
    ensures Keeps(s, s)
  {
    hide WorkersSound, BuffersSound, EndpointsSound, DevicesSound, CapabilitiesSound, InventorySound;
    hide RegistrationsSound;
    hide RegisteredSound, PlansSound, LedgerSound, Keeps;
    QuietStep(s, s);
  }

  lemma RevokeCapabilityKeeps(s: State, provider: Text, capability: Text, caller: Authority, slot: Option<nat>)
    requires Inv(s) && IsObservation(s.capabilities, provider, capability, slot)
    ensures Keeps(s, RevokeCapability(s, provider, capability, caller, slot).state)
  {
    hide Inv, Keeps, OwnerAllows;
    NothingKeeps(s);
    if slot.Some? { DroppingObservationKeeps(s, slot.value); }
  }

  // ---------------------------------------------------------------------
  // Invalidation
  // ---------------------------------------------------------------------

  /** Objects may have been added or changed, but keep their owners. */
  ghost predicate SameOwners(buffers: map<nat, Buffer>, buffers': map<nat, Buffer>) {
    forall k :: k in buffers ==> k in buffers' && buffers'[k].authority == buffers[k].authority
  }

  lemma RegistrationsReframed(rs: map<nat, Registration>, buffers: map<nat, Buffer>, endpoints: map<nat, Endpoint>,
                              buffers': map<nat, Buffer>, endpoints': map<nat, Endpoint>)
    requires RegistrationsSound(rs, buffers, endpoints)
    requires SameOwners(buffers, buffers') && endpoints.Keys <= endpoints'.Keys
    ensures RegistrationsSound(rs, buffers', endpoints')
  {
  }

  lemma RevalidateSound(rs: map<nat, Registration>, hit: set<nat>, buffers: map<nat, Buffer>,
                        endpoints: map<nat, Endpoint>)
    requires RegistrationsSound(rs, buffers, endpoints)
    ensures RegistrationsSound(Revalidate(rs, hit), buffers, endpoints)
  {
  }

  /** What made the registration current still does. */
  ghost predicate Undisturbed(r: Registration, buffers: map<nat, Buffer>, buffers': map<nat, Buffer>,
                              endpoints: map<nat, Endpoint>, endpoints': map<nat, Endpoint>,
                              epoch: nat, epoch': nat, workers: map<nat, nat>, workers': map<nat, nat>) {
    && (r.buffer in buffers ==> r.buffer in buffers' && buffers'[r.buffer].generation == buffers[r.buffer].generation &&
                                buffers'[r.buffer].lifecycle == buffers[r.buffer].lifecycle)
    && (r.endpoint in endpoints ==>
          r.endpoint in endpoints' && endpoints'[r.endpoint].generation == endpoints[r.endpoint].generation)
    && epoch' == epoch
    && (r.authority.WorkerOwned() && r.authority.worker in workers ==>
          r.authority.worker in workers' && workers[r.authority.worker] <= workers'[r.authority.worker])
  }

  /** Whatever an event disturbs is marked; the unmarked stay current. */
  lemma RevalidateRegistered(rs: map<nat, Registration>, hit: set<nat>, buffers: map<nat, Buffer>,
                             buffers': map<nat, Buffer>,
                             endpoints: map<nat, Endpoint>, endpoints': map<nat, Endpoint>,
                             epoch: nat, epoch': nat, workers: map<nat, nat>, workers': map<nat, nat>)
    requires RegisteredSound(rs, buffers, endpoints, epoch, workers)
    requires forall k :: k in rs && rs[k].state.Registered? && k !in hit ==>
               Undisturbed(rs[k], buffers, buffers', endpoints, endpoints', epoch, epoch', workers, workers')
    ensures RegisteredSound(Revalidate(rs, hit), buffers', endpoints', epoch', workers')
  {
    var rs' := Revalidate(rs, hit);
    forall k | k in rs' && rs'[k].state.Registered?
      ensures Current(rs'[k], rs', buffers', endpoints', epoch', workers')
    {
      assert rs'[k] == rs[k] && k !in hit;
      assert Current(rs[k], rs, buffers, endpoints, epoch, workers);
      forall j | j in rs' && rs'[j].Joins(rs'[k].buffer, rs'[k].endpoint) && j != rs'[k].id
        ensures rs'[j].generation < rs'[k].generation
      {
        assert rs[j].Joins(rs[k].buffer, rs[k].endpoint);
      }
    }
  }

  /** A plan that is not superseded is untouched by the event; a superseded one is indeed out of date. */
  ghost predicate FairlySuperseded(p: Plan, superseded: bool, buffers: map<nat, Buffer>, buffers': map<nat, Buffer>,
                                   endpoints: map<nat, Endpoint>, endpoints': map<nat, Endpoint>,
                                   epoch: nat, epoch': nat) {
    && epoch <= epoch'
    && p.source in buffers' && p.destination in endpoints'
    && (p.source in buffers ==> buffers[p.source].generation <= buffers'[p.source].generation)
    && (p.destination in endpoints ==> endpoints[p.destination].generation <= endpoints'[p.destination].generation)
    && (superseded ==> !InForce(p, buffers', endpoints', epoch'))
    && (!superseded ==>
          && epoch' == epoch
          && p.source in buffers && buffers'[p.source].generation == buffers[p.source].generation
          && buffers'[p.source].lifecycle == buffers[p.source].lifecycle
          && p.destination in endpoints && endpoints'[p.destination].generation == endpoints[p.destination].generation)
  }

  lemma SupersedeSound(plans: map<nat, Plan>, hit: set<nat>, buffers: map<nat, Buffer>, buffers': map<nat, Buffer>,
                       endpoints: map<nat, Endpoint>, endpoints': map<nat, Endpoint>, epoch: nat, epoch': nat, n: nat)
    requires PlansSound(plans, buffers, endpoints, epoch, n)
    requires forall k :: k in plans ==>
               FairlySuperseded(plans[k], k in hit, buffers, buffers', endpoints, endpoints', epoch, epoch')
    ensures PlansSound(Supersede(plans, hit), buffers', endpoints', epoch', n)
  {
    var plans' := Supersede(plans, hit);
    forall k | k in plans'
      ensures plans'[k].id == k && 0 < k <= n && PlanSound(plans'[k], buffers', endpoints', epoch')
    {
      assert PlanSound(plans[k], buffers, endpoints, epoch);
      assert FairlySuperseded(plans[k], k in hit, buffers, buffers', endpoints, endpoints', epoch, epoch');
    }
  }

  lemma SupersedeEvolves(s: State, s': State, hit: set<nat>)
    requires s'.plans == Supersede(s.plans, hit)
    requires forall k :: k in s.plans && k in hit ==> !InForce(s.plans[k], s'.buffers, s'.endpoints, s'.epoch)
    ensures PlansEvolve(s, s') && PlansAreBound(s, s')
  {
  }

  lemma LedgerReframed(plans: map<nat, Plan>, plans': map<nat, Plan>, attempts: map<nat, Attempt>,
                       receipts: map<nat, Receipt>, verifications: map<nat, Verification>, n: nat)
    requires LedgerSound(plans, attempts, receipts, verifications, n)
    requires forall k :: k in plans ==>
      && k in plans' && plans'[k].expectedBytes == plans[k].expectedBytes && plans'[k].authority == plans[k].authority
    ensures LedgerSound(plans', attempts, receipts, verifications, n)
  {
    hide HasVerification, ReceiptFor;
  }

  // ---------------------------------------------------------------------
  // Workers and epochs
  // ---------------------------------------------------------------------

  lemma BuffersStaySeen(buffers: map<nat, Buffer>, n: nat, epoch: nat, maxBoot: map<nat, nat>,
                        epoch': nat, maxBoot': map<nat, nat>)
    requires BuffersSound(buffers, n, epoch, maxBoot) && epoch <= epoch'
    requires forall w :: w in maxBoot ==> w in maxBoot' && maxBoot[w] <= maxBoot'[w]
    ensures BuffersSound(buffers, n, epoch', maxBoot')
  {
  }

  lemma NothingRevalidated(rs: map<nat, Registration>)
    ensures Revalidate(rs, {}) == rs
  {
  }

  lemma WorkerAdmitted(s: State, w: nat, boot: nat)
    requires Inv(s) && w != 0
    requires w in s.maxBoot ==> s.maxBoot[w] <= boot
    requires w in s.maxBoot && s.maxBoot[w] != 0 ==> s.maxBoot[w] < boot
    ensures Keeps(s, s.(workers := s.workers[w := boot], maxBoot := s.maxBoot[w := boot]))
  {
    hide BuffersSound, EndpointsSound, DevicesSound, CapabilitiesSound, InventorySound, RegistrationsSound;
    hide RegisteredSound, PlansSound, LedgerSound;
    hide BuffersEvolve, EndpointsEvolve, PlansEvolve, PlansAreBound, LedgerEvolves;
    var s' := s.(workers := s.workers[w := boot], maxBoot := s.maxBoot[w := boot]);
    BuffersStaySeen(s.buffers, s.nextId, s.epoch, s.maxBoot, s.epoch, s'.maxBoot);
    NothingRevalidated(s.registrations);
    RevalidateRegistered(s.registrations, {}, s.buffers, s.buffers, s.endpoints, s.endpoints,
                         s.epoch, s.epoch, s.workers, s'.workers);
    BuffersUnchanged(s, s');
    EndpointsUnchanged(s, s');
    PlansUnchanged(s, s');
    LedgerUnchanged(s, s');
  }

  lemma LiveBootIsRecorded(s: State, w: nat)
    requires Inv(s) && w in s.workers
    ensures w != 0 && w in s.maxBoot && s.maxBoot[w] == s.workers[w]
  {
  }

  lemma RegisterWorkerKeeps(s: State, w: nat, boot: nat, epoch: nat)
    requires Inv(s)
    ensures Keeps(s, RegisterWorker(s, w, boot, epoch).state)
  {
    hide Inv, Keeps;
    NothingKeeps(s);
    if w in s.workers { LiveBootIsRecorded(s, w); }
    if RegisterWorker(s, w, boot, epoch).state != s { WorkerAdmitted(s, w, boot); }
  }

  lemma MarkWorkerDeadKeeps(s: State, w: nat)
    requires Inv(s)
    ensures Keeps(s, MarkWorkerDead(s, w))
  {
    hide BuffersSound, EndpointsSound, DevicesSound, CapabilitiesSound, InventorySound, RegistrationsSound;
    hide RegisteredSound, PlansSound, LedgerSound;
    hide BuffersEvolve, EndpointsEvolve, PlansEvolve, PlansAreBound, LedgerEvolves;
    var s' := MarkWorkerDead(s, w);
    var hit := set k | k in s.registrations && s.registrations[k].authority.worker == w && w != 0;
    RevalidateSound(s.registrations, hit, s.buffers, s.endpoints);
    RevalidateRegistered(s.registrations, hit, s.buffers, s.buffers, s.endpoints, s.endpoints,
                         s.epoch, s.epoch, s.workers, s'.workers);
    BuffersUnchanged(s, s');
    EndpointsUnchanged(s, s');
    PlansUnchanged(s, s');
    LedgerUnchanged(s, s');
  }

  lemma AllPlansSuperseded(s: State, epoch: nat)
    requires Inv(s) && s.epoch < epoch
    ensures PlansSound(Supersede(s.plans, s.plans.Keys), s.buffers, s.endpoints, epoch, s.nextId)
    ensures forall k :: k in s.plans ==> !InForce(s.plans[k], s.buffers, s.endpoints, epoch)
  {
    hide WorkersSound, BuffersSound, EndpointsSound, DevicesSound, CapabilitiesSound, InventorySound;
    hide RegistrationsSound;
    hide RegisteredSound, LedgerSound;
    forall i | i in s.plans
      ensures FairlySuperseded(s.plans[i], true, s.buffers, s.buffers, s.endpoints, s.endpoints, s.epoch, epoch)
    {
      assert PlanSound(s.plans[i], s.buffers, s.endpoints, s.epoch);
    }
    SupersedeSound(s.plans, s.plans.Keys, s.buffers, s.buffers, s.endpoints, s.endpoints, s.epoch, epoch, s.nextId);
  }

  lemma AdvanceEpochKeeps(s: State)
    requires Inv(s)
    ensures Keeps(s, AdvanceEpoch(s))
  {
    hide InForce;
    hide BuffersSound, EndpointsSound, DevicesSound, CapabilitiesSound, InventorySound, RegistrationsSound;
    hide RegisteredSound, PlansSound, LedgerSound;
    hide BuffersEvolve, EndpointsEvolve, PlansEvolve, PlansAreBound, LedgerEvolves;
    var s' := AdvanceEpoch(s);
    var hit := set k | k in s.registrations &&
                       (s.registrations[k].state.Registered? || s.registrations[k].state.Registering?);
    BuffersStaySeen(s.buffers, s.nextId, s.epoch, s.maxBoot, s'.epoch, s.maxBoot);
    RevalidateSound(s.registrations, hit, s.buffers, s.endpoints);
    RevalidateRegistered(s.registrations, hit, s.buffers, s.buffers, s.endpoints, s.endpoints,
                         s.epoch, s'.epoch, s.workers, s'.workers);
    AllPlansSuperseded(s, s'.epoch);
    SupersedeEvolves(s, s', s.plans.Keys);
    LedgerReframed(s.plans, s'.plans, s.attempts, s.receipts, s.verifications, s.nextId);
    BuffersUnchanged(s, s');
    EndpointsUnchanged(s, s');
    LedgerUnchanged(s, s');
  }

  // ---------------------------------------------------------------------
  // Buffers
  // ---------------------------------------------------------------------

  lemma BufferReplaced(buffers: map<nat, Buffer>, k: nat, b: Buffer, n: nat, epoch: nat, maxBoot: map<nat, nat>)
    requires BuffersSound(buffers, n, epoch, maxBoot)
    requires k in buffers && b.id == k && b.authority == buffers[k].authority && buffers[k].generation <= b.generation
    ensures BuffersSound(buffers[k := b], n, epoch, maxBoot)
  {
  }

  lemma BufferReplacedEvolves(s: State, s': State, k: nat, b: Buffer)
    requires k in s.buffers && s'.buffers == s.buffers[k := b] && b.authority == s.buffers[k].authority
    requires s.buffers[k].generation <= b.generation
    requires s.buffers[k].lifecycle.RetiredBuffer? ==> b.lifecycle.RetiredBuffer?
    requires b.authority.WorkerOwned() ==> Live(s, b.authority)
    ensures BuffersEvolve(s, s')
  {
  }

  lemma BufferAdded(s: State, s': State, b: Buffer)
    requires Inv(s) && s.nextId < b.id <= s'.nextId && s'.buffers == s.buffers[b.id := b] && b.generation >= 1
    requires b.authority.WorkerOwned() ==> Seen(b.authority, s.epoch, s.maxBoot)
    ensures BuffersSound(s'.buffers, s'.nextId, s.epoch, s.maxBoot) && BuffersEvolve(s, s')
  {
    hide EndpointsSound, DevicesSound, CapabilitiesSound, InventorySound;
    hide RegistrationsSound, RegisteredSound, PlansSound, LedgerSound;
  }

  lemma LiveIsSeen(s: State, a: Authority)
    requires Inv(s) && Live(s, a) && a.WorkerOwned()
    ensures Seen(a, s.epoch, s.maxBoot)
  {
    hide BuffersSound, EndpointsSound, DevicesSound, CapabilitiesSound, InventorySound, RegistrationsSound;
    hide RegisteredSound, PlansSound, LedgerSound;
  }

  /** Adding a buffer under a new id disturbs no registration and no plan. */
  lemma FencesSurviveNewBuffer(s: State, b: Buffer)
    requires Inv(s) && s.nextId < b.id
    ensures RegistrationsSound(s.registrations, s.buffers[b.id := b], s.endpoints)
    ensures RegisteredSound(s.registrations, s.buffers[b.id := b], s.endpoints, s.epoch, s.workers)
    ensures PlansSound(s.plans, s.buffers[b.id := b], s.endpoints, s.epoch, s.nextId)
  {
    hide WorkersSound, EndpointsSound, DevicesSound, CapabilitiesSound, InventorySound, LedgerSound;
    hide RegistrationsSound, RegisteredSound, PlansSound;
    var buffers' := s.buffers[b.id := b];
    assert forall k :: k in s.buffers ==> buffers'[k] == s.buffers[k];
    RegistrationsReframed(s.registrations, s.buffers, s.endpoints, buffers', s.endpoints);
    NothingRevalidated(s.registrations);
    RevalidateRegistered(s.registrations, {}, s.buffers, buffers', s.endpoints, s.endpoints,
                         s.epoch, s.epoch, s.workers, s.workers);
    PlansUnaffected(s.plans, s.buffers, buffers', s.endpoints, s.endpoints, s.epoch, s.nextId);
  }

  /** Plans are indifferent to objects being added, and to changes that keep generation and lifecycle. */
  lemma PlansUnaffected(plans: map<nat, Plan>, buffers: map<nat, Buffer>, buffers': map<nat, Buffer>,
                     endpoints: map<nat, Endpoint>, endpoints': map<nat, Endpoint>, epoch: nat, n: nat)
    requires PlansSound(plans, buffers, endpoints, epoch, n)
    requires forall k :: k in buffers ==> k in buffers' && buffers'[k].generation == buffers[k].generation &&
                                          buffers'[k].lifecycle == buffers[k].lifecycle
    requires forall k :: k in endpoints ==> k in endpoints' && endpoints'[k].generation == endpoints[k].generation
    ensures PlansSound(plans, buffers', endpoints', epoch, n)
  {
    forall k | k in plans ensures PlanSound(plans[k], buffers', endpoints', epoch) {
      assert PlanSound(plans[k], buffers, endpoints, epoch);
    }
  }

  lemma CreateBufferKeeps(s: State, p: BufferParams)
    requires Inv(s)
    ensures Keeps(s, CreateBuffer(s, p).state)
  {
    hide WorkersSound, BuffersSound, EndpointsSound, DevicesSound, CapabilitiesSound, InventorySound;
    hide RegistrationsSound;
    hide RegisteredSound, PlansSound, LedgerSound, Seen, Live;
    hide WorkersEvolve, BuffersEvolve, EndpointsEvolve, PlansEvolve, PlansAreBound, LedgerEvolves;
    var step := CreateBuffer(s, p);
    if step.reply.Err? {
      NothingKeeps(s);
    } else {
      var s', b := step.state, step.reply.value;
      if p.authority.WorkerOwned() { LiveIsSeen(s, p.authority); }
      IdsGrow(s, s'.nextId);
      BufferAdded(s, s', b);
      FencesSurviveNewBuffer(s, b);
      IdsGrowPlans(s'.plans, s'.buffers, s'.endpoints, s'.epoch, s.nextId, s'.nextId);
      WorkersUnchanged(s, s');
      EndpointsUnchanged(s, s');
      PlansUnchanged(s, s');
      LedgerUnchanged(s, s');
    }
  }

  lemma IdsGrowPlans(plans: map<nat, Plan>, buffers: map<nat, Buffer>, endpoints: map<nat, Endpoint>, epoch: nat,
                     n: nat, n': nat)
    requires PlansSound(plans, buffers, endpoints, epoch, n) && n <= n'
    ensures PlansSound(plans, buffers, endpoints, epoch, n')
  {
    hide PlanSound;
  }

  /** A buffer whose generation has moved on, or that is retired, fences everything that depended on it. */
  lemma BufferEventKeeps(s: State, k: nat, b: Buffer, now: nat)
    requires Inv(s) && k in s.buffers && b.id == k && b.authority == s.buffers[k].authority
    requires b.authority.WorkerOwned() ==> Live(s, b.authority)
    requires s.buffers[k].generation <= b.generation
    requires s.buffers[k].lifecycle.RetiredBuffer? ==> b.lifecycle.RetiredBuffer?
    requires s.buffers[k].generation < b.generation || b.lifecycle.RetiredBuffer?
    ensures Keeps(s, InvalidateBuffer(s.(freshness := now, buffers := s.buffers[k := b]), k))
  {
    hide InForce;
    hide WorkersSound, BuffersSound, EndpointsSound, DevicesSound, CapabilitiesSound, InventorySound;
    hide RegistrationsSound;
    hide RegisteredSound, LedgerSound;
    hide WorkersEvolve, BuffersEvolve, EndpointsEvolve, PlansEvolve, PlansAreBound, LedgerEvolves;
    var s' := InvalidateBuffer(s.(freshness := now, buffers := s.buffers[k := b]), k);
    var hit := set i | i in s.registrations && s.registrations[i].buffer == k;
    BufferReplaced(s.buffers, k, b, s.nextId, s.epoch, s.maxBoot);
    BufferReplacedEvolves(s, s', k, b);
    RegistrationsReframed(s.registrations, s.buffers, s.endpoints, s'.buffers, s.endpoints);
    RevalidateSound(s.registrations, hit, s'.buffers, s.endpoints);
    RevalidateRegistered(s.registrations, hit, s.buffers, s'.buffers, s.endpoints, s.endpoints,
                         s.epoch, s.epoch, s.workers, s.workers);
    PlansOfBufferSuperseded(s, k, b);
    SupersedeEvolves(s, s', set i | i in s.plans && s.plans[i].source == k);
    LedgerReframed(s.plans, s'.plans, s.attempts, s.receipts, s.verifications, s.nextId);
    WorkersUnchanged(s, s');
    EndpointsUnchanged(s, s');
    LedgerUnchanged(s, s');
  }

  lemma PlansOfBufferSuperseded(s: State, k: nat, b: Buffer)
    requires Inv(s) && k in s.buffers
    requires s.buffers[k].generation <= b.generation
    requires s.buffers[k].generation < b.generation || b.lifecycle.RetiredBuffer?
    ensures PlansSound(Supersede(s.plans, set i | i in s.plans && s.plans[i].source == k), s.buffers[k := b],
                       s.endpoints, s.epoch, s.nextId)
    ensures forall i :: i in s.plans && s.plans[i].source == k ==>
              !InForce(s.plans[i], s.buffers[k := b], s.endpoints, s.epoch)
  {
    hide WorkersSound, BuffersSound, EndpointsSound, DevicesSound, CapabilitiesSound, InventorySound;
    hide RegistrationsSound;
    hide RegisteredSound, LedgerSound;
    var hit := set i | i in s.plans && s.plans[i].source == k;
    var buffers' := s.buffers[k := b];
    forall i | i in s.plans
      ensures FairlySuperseded(s.plans[i], i in hit, s.buffers, buffers', s.endpoints, s.endpoints, s.epoch, s.epoch)
    {
      assert PlanSound(s.plans[i], s.buffers, s.endpoints, s.epoch);
    }
    SupersedeSound(s.plans, hit, s.buffers, buffers', s.endpoints, s.endpoints, s.epoch, s.epoch, s.nextId);
  }

  lemma BufferIdIsKey(s: State, k: nat)
    requires Inv(s) && k in s.buffers
    ensures s.buffers[k].id == k && s.buffers[k].generation >= 1
  {
  }

  lemma AdvanceBufferKeeps(s: State, id: nat, caller: Authority)
    requires Inv(s)
    ensures Keeps(s, AdvanceBufferGeneration(s, id, caller).state)
  {
    hide Inv, Keeps, InvalidateBuffer, Live;
    var step := AdvanceBufferGeneration(s, id, caller);
    NothingKeeps(s);
    if step.reply.Ok? {
      BufferIdIsKey(s, id);
      BufferEventKeeps(s, id, step.reply.value, s.freshness + 1);
    }
  }

  lemma RetireBufferKeeps(s: State, id: nat, caller: Authority)
    requires Inv(s)
    ensures Keeps(s, RetireBuffer(s, id, caller).state)
  {
    hide Inv, Keeps, InvalidateBuffer, Live;
    NothingKeeps(s);
    if RetireBuffer(s, id, caller).reply.Ok? {
      BufferIdIsKey(s, id);
      BufferEventKeeps(s, id, s.buffers[id].(lifecycle := RetiredBuffer, freshness := s.freshness + 1),
                       s.freshness + 1);
    }
  }

  // ---------------------------------------------------------------------
  // Endpoints
  // ---------------------------------------------------------------------

  lemma EndpointPut(endpoints: map<nat, Endpoint>, k: nat, e: Endpoint, n: nat, n': nat)
    requires EndpointsSound(endpoints, n) && n <= n' && e.id == k && 0 < k <= n' && e.generation >= 1
    ensures EndpointsSound(endpoints[k := e], n')
  {
  }

  lemma EndpointPutEvolves(s: State, s': State, k: nat, e: Endpoint)
    requires s'.endpoints == s.endpoints[k := e]
    requires k in s.endpoints ==> s.endpoints[k].generation <= e.generation
    ensures EndpointsEvolve(s, s')
  {
  }

  /** Putting an endpoint under a new id, or back with its generation unchanged, disturbs nothing. */
  lemma EndpointPutKeeps(s: State, s': State, k: nat, e: Endpoint)
    requires Inv(s) && e.id == k && (k in s.endpoints || s.nextId < k) && e.generation >= 1
    requires k in s.endpoints ==> e.generation == s.endpoints[k].generation
    requires s.nextId <= s'.nextId && 0 < k <= s'.nextId
    requires s' == s.(nextId := s'.nextId, freshness := s'.freshness, endpoints := s.endpoints[k := e])
    ensures Keeps(s, s')
  {
    hide WorkersSound, BuffersSound, EndpointsSound, DevicesSound, CapabilitiesSound, InventorySound;
    hide RegistrationsSound;
    hide RegisteredSound, PlansSound, LedgerSound;
    hide WorkersEvolve, BuffersEvolve, EndpointsEvolve, PlansEvolve, PlansAreBound, LedgerEvolves;
    IdsGrow(s, s'.nextId);
    EndpointPut(s.endpoints, k, e, s.nextId, s'.nextId);
    EndpointPutEvolves(s, s', k, e);
    RegistrationsReframed(s.registrations, s.buffers, s.endpoints, s.buffers, s'.endpoints);
    EndpointsKeepGenerations(s, s', k, e);
    NothingRevalidated(s.registrations);
    RevalidateRegistered(s.registrations, {}, s.buffers, s.buffers, s.endpoints, s'.endpoints,
                         s.epoch, s.epoch, s.workers, s.workers);
    PlansUnaffected(s.plans, s.buffers, s.buffers, s.endpoints, s'.endpoints, s.epoch, s.nextId);
    IdsGrowPlans(s.plans, s.buffers, s'.endpoints, s.epoch, s.nextId, s'.nextId);
    WorkersUnchanged(s, s');
    BuffersUnchanged(s, s');
    PlansUnchanged(s, s');
    LedgerUnchanged(s, s');
  }

  lemma EndpointsKeepGenerations(s: State, s': State, k: nat, e: Endpoint)
    requires Inv(s) && s'.endpoints == s.endpoints[k := e]
    requires k in s.endpoints ==> e.generation == s.endpoints[k].generation
    ensures forall j :: j in s.endpoints ==>
              j in s'.endpoints && s'.endpoints[j].generation == s.endpoints[j].generation
  {
    hide WorkersSound, BuffersSound, DevicesSound, CapabilitiesSound;
    hide InventorySound, RegistrationsSound, RegisteredSound, PlansSound, LedgerSound;
  }

  lemma EndpointIdIsKey(s: State, k: nat)
    requires Inv(s) && k in s.endpoints
    ensures s.endpoints[k].id == k && 0 < k <= s.nextId && s.endpoints[k].generation >= 1
  {
  }

  lemma NewIdsAreUnused(s: State)
    requires Inv(s)
    ensures forall k :: s.nextId < k ==> k !in s.endpoints && k !in s.plans && k !in s.attempts && k !in s.receipts
  {
    hide WorkersSound, BuffersSound, DevicesSound, CapabilitiesSound, InventorySound, RegistrationsSound;
    hide RegisteredSound;
    hide PlanSound, AttemptSound;
  }

  lemma AddEndpointKeeps(s: State, p: EndpointParams)
    requires Inv(s)
    ensures Keeps(s, AddEndpoint(s, p).state)
  {
    hide Inv, Keeps, Live;
    NothingKeeps(s);
    NewIdsAreUnused(s);
    var step := AddEndpoint(s, p);
    if step.reply.Ok? { EndpointPutKeeps(s, step.state, s.nextId + 1, step.reply.value); }
  }

  lemma SetEndpointHealthKeeps(s: State, id: nat, healthy: bool, caller: Authority)
    requires Inv(s)
    ensures Keeps(s, SetEndpointHealth(s, id, healthy, caller).state)
  {
    hide Inv, Keeps, OwnerAllows;
    NothingKeeps(s);
    if id in s.endpoints { EndpointIdIsKey(s, id); }
    var step := SetEndpointHealth(s, id, healthy, caller);
    if step.reply.Ok? {
      EndpointPutKeeps(s, step.state, id, s.endpoints[id].(healthy := healthy, freshness := s.freshness + 1));
    }
  }

  lemma PlansOfEndpointSuperseded(s: State, k: nat, e: Endpoint)
    requires Inv(s) && k in s.endpoints && s.endpoints[k].generation < e.generation
    ensures PlansSound(Supersede(s.plans, set i | i in s.plans && s.plans[i].destination == k), s.buffers,
                       s.endpoints[k := e], s.epoch, s.nextId)
    ensures forall i :: i in s.plans && s.plans[i].destination == k ==>
              !InForce(s.plans[i], s.buffers, s.endpoints[k := e], s.epoch)
  {
    hide WorkersSound, BuffersSound, EndpointsSound, DevicesSound, CapabilitiesSound, InventorySound;
    hide RegistrationsSound;
    hide RegisteredSound, LedgerSound;
    var hit := set i | i in s.plans && s.plans[i].destination == k;
    var endpoints' := s.endpoints[k := e];
    forall i | i in s.plans
      ensures FairlySuperseded(s.plans[i], i in hit, s.buffers, s.buffers, s.endpoints, endpoints', s.epoch, s.epoch)
    {
      assert PlanSound(s.plans[i], s.buffers, s.endpoints, s.epoch);
    }
    SupersedeSound(s.plans, hit, s.buffers, s.buffers, s.endpoints, endpoints', s.epoch, s.epoch, s.nextId);
  }

  lemma EndpointEventKeeps(s: State, k: nat, e: Endpoint, now: nat)
    requires Inv(s) && k in s.endpoints && e.id == k && s.endpoints[k].generation < e.generation && 0 < k <= s.nextId
    ensures Keeps(s, InvalidateEndpoint(s.(freshness := now, endpoints := s.endpoints[k := e]), k))
  {
    hide InForce;
    hide WorkersSound, BuffersSound, EndpointsSound, DevicesSound, CapabilitiesSound, InventorySound;
    hide RegistrationsSound;
    hide RegisteredSound, PlansSound, LedgerSound;
    hide WorkersEvolve, BuffersEvolve, EndpointsEvolve, PlansEvolve, PlansAreBound, LedgerEvolves;
    var s' := InvalidateEndpoint(s.(freshness := now, endpoints := s.endpoints[k := e]), k);
    var hit := set i | i in s.registrations && s.registrations[i].endpoint == k;
    EndpointPut(s.endpoints, k, e, s.nextId, s.nextId);
    EndpointPutEvolves(s, s', k, e);
    RegistrationsReframed(s.registrations, s.buffers, s.endpoints, s.buffers, s'.endpoints);
    RevalidateSound(s.registrations, hit, s.buffers, s'.endpoints);
    RevalidateRegistered(s.registrations, hit, s.buffers, s.buffers, s.endpoints, s'.endpoints,
                         s.epoch, s.epoch, s.workers, s.workers);
    PlansOfEndpointSuperseded(s, k, e);
    SupersedeEvolves(s, s', set i | i in s.plans && s.plans[i].destination == k);
    LedgerReframed(s.plans, s'.plans, s.attempts, s.receipts, s.verifications, s.nextId);
    WorkersUnchanged(s, s');
    BuffersUnchanged(s, s');
    LedgerUnchanged(s, s');
  }

  lemma AdvanceEndpointKeeps(s: State, id: nat, caller: Authority)
    requires Inv(s)
    ensures Keeps(s, AdvanceEndpointGeneration(s, id, caller).state)
  {
    hide Inv, Keeps, InvalidateEndpoint, OwnerAllows;
    NothingKeeps(s);
    if id in s.endpoints { EndpointIdIsKey(s, id); }
    var step := AdvanceEndpointGeneration(s, id, caller);
    if step.reply.Ok? { EndpointEventKeeps(s, id, step.reply.value, s.freshness + 1); }
  }
}
