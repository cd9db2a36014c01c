/** Registration, planning and the transfer ledger keep the invariants. */
module TransferSteps {
  import opened Types
  import opened PathPlanner
  import opened CoordinatorModel
  import opened Invariants
  import opened Steps

  // ---------------------------------------------------------------------
  // Registration
  // ---------------------------------------------------------------------

  /** A new registration sits strictly above the history of its pair. */
  ghost predicate Tops(rs: map<nat, Registration>, r: Registration) {
    forall j :: j in rs && rs[j].Joins(r.buffer, r.endpoint) ==> rs[j].generation < r.generation
  }

  lemma RegistrationAdded(rs: map<nat, Registration>, r: Registration, buffers: map<nat, Buffer>,
                          endpoints: map<nat, Endpoint>)
    requires RegistrationsSound(rs, buffers, endpoints) && Tops(rs, r)
    requires r.id != 0 && r.state.Registered? && r.buffer in buffers && r.endpoint in endpoints
    requires buffers[r.buffer].authority.WorkerOwned() ==> r.authority == buffers[r.buffer].authority
    ensures RegistrationsSound(rs[r.id := r], buffers, endpoints)
  {
  }

  lemma RegisteredAdded(rs: map<nat, Registration>, r: Registration, buffers: map<nat, Buffer>,
                        endpoints: map<nat, Endpoint>,
                        epoch: nat, workers: map<nat, nat>)
    requires RegisteredSound(rs, buffers, endpoints, epoch, workers) && Tops(rs, r)
    requires forall j :: j in rs && rs[j].state.Registered? ==> rs[j].id == j && !rs[j].Joins(r.buffer, r.endpoint)
    requires Current(r, map[], buffers, endpoints, epoch, workers)
    ensures RegisteredSound(rs[r.id := r], buffers, endpoints, epoch, workers)
  {
    var rs' := rs[r.id := r];
    forall k | k in rs' && rs'[k].state.Registered? ensures Current(rs'[k], rs', buffers, endpoints, epoch, workers) {
      if k != r.id {
        assert Current(rs[k], rs, buffers, endpoints, epoch, workers);
      }
    }
  }

  /** When the newest registration of a pair is not REGISTERED, none of the pair is. */
  lemma NoneRegistered(s: State, b: nat, e: nat, latest: Option<nat>)
    requires Inv(s) && IsLatest(s.registrations, b, e, latest)
    requires latest.Some? ==> !s.registrations[latest.value].state.Registered?
    ensures forall j :: j in s.registrations && s.registrations[j].state.Registered? ==>
              s.registrations[j].id == j && !s.registrations[j].Joins(b, e)
  {
    hide WorkersSound, BuffersSound, EndpointsSound, DevicesSound, CapabilitiesSound, InventorySound, PlansSound;
    hide LedgerSound;
    forall j | j in s.registrations && s.registrations[j].state.Registered?
      ensures s.registrations[j].id == j && !s.registrations[j].Joins(b, e)
    {
      assert Current(s.registrations[j], s.registrations, s.buffers, s.endpoints, s.epoch, s.workers);
    }
  }

  ghost predicate Admissible(s: State, p: RegisterParams, generation: nat) {
    && RegisterRejection(s, p).None?
    && (forall j :: j in s.registrations && s.registrations[j].Joins(p.buffer, p.endpoint) ==>
          s.registrations[j].generation < generation)
    && (forall j :: j in s.registrations && s.registrations[j].state.Registered? ==>
          s.registrations[j].id == j && !s.registrations[j].Joins(p.buffer, p.endpoint))
  }

  lemma NewRegistrationSound(s: State, p: RegisterParams, grant: BackendGrant, generation: nat)
    requires Inv(s) && Admissible(s, p, generation) && !grant.Refused?
    ensures
      var s' := NewRegistration(s, p, grant, generation).state;
      && RegistrationsSound(s'.registrations, s'.buffers, s'.endpoints)
      && RegisteredSound(s'.registrations, s'.buffers, s'.endpoints, s'.epoch, s'.workers)
  {
    hide WorkersSound, BuffersSound, EndpointsSound, DevicesSound, CapabilitiesSound, InventorySound;
    hide RegistrationsSound;
    hide RegisteredSound, PlansSound, LedgerSound;
    var step := NewRegistration(s, p, grant, generation);
    var s', r := step.state, step.reply.value;
    BufferIdIsKey(s, p.buffer);
    EndpointIdIsKey(s, p.endpoint);
    RegistrationsReframed(s.registrations, s.buffers, s.endpoints, s'.buffers, s.endpoints);
    RegistrationAdded(s.registrations, r, s'.buffers, s.endpoints);
    NothingRevalidated(s.registrations);
    RevalidateRegistered(s.registrations, {}, s.buffers, s'.buffers, s.endpoints, s.endpoints,
                         s.epoch, s.epoch, s.workers, s.workers);
    RegisteredAdded(s.registrations, r, s'.buffers, s.endpoints, s.epoch, s.workers);
  }

  lemma NewRegistrationKeeps(s: State, p: RegisterParams, grant: BackendGrant, generation: nat)
    requires Inv(s) && Admissible(s, p, generation) && !grant.Refused?
    ensures Keeps(s, NewRegistration(s, p, grant, generation).state)
  {
    hide WorkersSound, BuffersSound, EndpointsSound, DevicesSound, CapabilitiesSound, InventorySound;
    hide RegistrationsSound;
    hide RegisteredSound, PlansSound, LedgerSound;
    hide WorkersEvolve, BuffersEvolve, EndpointsEvolve, PlansEvolve, PlansAreBound, LedgerEvolves;
    var s' := NewRegistration(s, p, grant, generation).state;
    BufferIdIsKey(s, p.buffer);
    var b := s'.buffers[p.buffer];
    IdsGrow(s, s'.nextId);
    BufferReplaced(s.buffers, p.buffer, b, s'.nextId, s.epoch, s.maxBoot);
    BufferReplacedEvolves(s, s', p.buffer, b);
    NewRegistrationSound(s, p, grant, generation);
    PlansUnaffected(s.plans, s.buffers, s'.buffers, s.endpoints, s.endpoints, s.epoch, s.nextId);
    IdsGrowPlans(s.plans, s'.buffers, s.endpoints, s.epoch, s.nextId, s'.nextId);
    WorkersUnchanged(s, s');
    EndpointsUnchanged(s, s');
    PlansUnchanged(s, s');
    LedgerUnchanged(s, s');
  }

  lemma NeverDeregistering(s: State, k: nat)
    requires Inv(s) && k in s.registrations
    ensures !s.registrations[k].state.Deregistering? && s.registrations[k].id == k && k != 0
  {
  }

  lemma RegisterBufferKeeps(s: State, p: RegisterParams, grant: BackendGrant, latest: Option<nat>)
    requires Inv(s) && IsLatest(s.registrations, p.buffer, p.endpoint, latest)
    ensures Keeps(s, RegisterBuffer(s, p, grant, latest).state)
  {
    hide Inv, Keeps, RegisterRejection, NewRegistration, AlreadyGranted;
    NothingKeeps(s);
    if latest.Some? { NeverDeregistering(s, latest.value); }
    if RegisterBuffer(s, p, grant, latest).state != s {
      NoneRegistered(s, p.buffer, p.endpoint, latest);
      NewRegistrationKeeps(s, p, grant, if latest.Some? then s.registrations[latest.value].generation + 1 else 1);
    }
  }

  lemma RegistrationRetired(rs: map<nat, Registration>, k: nat, r: Registration, buffers: map<nat, Buffer>,
                            endpoints: map<nat, Endpoint>)
    requires RegistrationsSound(rs, buffers, endpoints) && k in rs
    requires r == rs[k].(state := Retired, handle := r.handle, freshness := r.freshness)
    ensures RegistrationsSound(rs[k := r], buffers, endpoints)
  {
  }

  lemma RegisteredWithout(rs: map<nat, Registration>, k: nat, r: Registration, buffers: map<nat, Buffer>,
                          endpoints: map<nat, Endpoint>, epoch: nat, workers: map<nat, nat>)
    requires RegisteredSound(rs, buffers, endpoints, epoch, workers) && k in rs
    requires r == rs[k].(state := Retired, handle := r.handle, freshness := r.freshness)
    ensures RegisteredSound(rs[k := r], buffers, endpoints, epoch, workers)
  {
    var rs' := rs[k := r];
    forall j | j in rs' && rs'[j].state.Registered? ensures Current(rs'[j], rs', buffers, endpoints, epoch, workers) {
      assert Current(rs[j], rs, buffers, endpoints, epoch, workers);
    }
  }

  lemma RetiringKeeps(s: State, k: nat, r: Registration, now: nat)
    requires Inv(s) && k in s.registrations
    requires r == s.registrations[k].(state := Retired, handle := r.handle, freshness := r.freshness)
    ensures Keeps(s, s.(freshness := now, registrations := s.registrations[k := r]))
  {
    hide WorkersSound, BuffersSound, EndpointsSound, DevicesSound, CapabilitiesSound, InventorySound;
    hide RegistrationsSound;
    hide RegisteredSound, PlansSound, LedgerSound;
    hide WorkersEvolve, BuffersEvolve, EndpointsEvolve, PlansEvolve, PlansAreBound, LedgerEvolves;
    var s' := s.(freshness := now, registrations := s.registrations[k := r]);
    RegistrationRetired(s.registrations, k, r, s.buffers, s.endpoints);
    RegisteredWithout(s.registrations, k, r, s.buffers, s.endpoints, s.epoch, s.workers);
    WorkersUnchanged(s, s');
    BuffersUnchanged(s, s');
    EndpointsUnchanged(s, s');
    PlansUnchanged(s, s');
    LedgerUnchanged(s, s');
  }

  /** Clearing a buffer's note of its registration changes nothing that anything depends on. */
  lemma BufferNoteKeeps(s: State, k: nat, b: Buffer, now: nat)
    requires Inv(s) && k in s.buffers && b.authority == s.buffers[k].authority && b.id == k
    requires b.generation == s.buffers[k].generation && b.lifecycle == s.buffers[k].lifecycle
    requires b.authority.WorkerOwned() ==> Live(s, b.authority)
    ensures Keeps(s, s.(freshness := now, buffers := s.buffers[k := b]))
  {
    hide WorkersSound, BuffersSound, EndpointsSound, DevicesSound, CapabilitiesSound, InventorySound;
    hide RegistrationsSound;
    hide RegisteredSound, PlansSound, LedgerSound;
    hide WorkersEvolve, BuffersEvolve, EndpointsEvolve, PlansEvolve, PlansAreBound, LedgerEvolves;
    var s' := s.(freshness := now, buffers := s.buffers[k := b]);
    BufferReplaced(s.buffers, k, b, s.nextId, s.epoch, s.maxBoot);
    BufferReplacedEvolves(s, s', k, b);
    RegistrationsReframed(s.registrations, s.buffers, s.endpoints, s'.buffers, s.endpoints);
    NothingRevalidated(s.registrations);
    RevalidateRegistered(s.registrations, {}, s.buffers, s'.buffers, s.endpoints, s.endpoints,
                         s.epoch, s.epoch, s.workers, s.workers);
    PlansUnaffected(s.plans, s.buffers, s'.buffers, s.endpoints, s.endpoints, s.epoch, s.nextId);
    WorkersUnchanged(s, s');
    EndpointsUnchanged(s, s');
    PlansUnchanged(s, s');
    LedgerUnchanged(s, s');
  }

  /** Two changes in one step: registrations, then buffers. */
  lemma KeepsCompose(s: State, s1: State, s2: State)
    requires Inv(s) && Keeps(s, s1) && Keeps(s1, s2)
    requires s1.buffers == s.buffers && s1.epoch == s.epoch && s1.workers == s.workers && s1.plans == s.plans
    requires s2.registrations == s1.registrations && s2.plans == s1.plans && s2.attempts == s.attempts
    requires s2.receipts == s.receipts
    requires s2.epoch == s1.epoch && s2.workers == s1.workers && s2.maxBoot == s1.maxBoot == s.maxBoot
    ensures Keeps(s, s2)
  {
    hide Inv, PlansEvolve, PlansAreBound, LedgerEvolves, WorkersEvolve;
    PlansUnchanged(s, s2);
    LedgerUnchanged(s, s2);
    WorkersUnchanged(s, s2);
  }

  lemma RegistrationOwner(s: State, k: nat)
    requires Inv(s) && k in s.registrations
    ensures
      var r := s.registrations[k];
      r.buffer in s.buffers && s.buffers[r.buffer].id == r.buffer &&
      (s.buffers[r.buffer].authority.WorkerOwned() ==> r.authority == s.buffers[r.buffer].authority)
  {
    hide WorkersSound, EndpointsSound, DevicesSound, CapabilitiesSound;
    hide InventorySound, RegisteredSound, PlansSound, LedgerSound, Seen;
  }

  lemma DeregisterBufferKeeps(s: State, id: nat, caller: Authority, latest: Option<nat>)
    requires Inv(s)
    requires id in s.registrations ==>
               IsLatest(s.registrations, s.registrations[id].buffer, s.registrations[id].endpoint, latest)
    ensures Keeps(s, DeregisterBuffer(s, id, caller, latest).state)
  {
    hide Inv, Keeps, IsLatest, Live;
    NothingKeeps(s);
    var s' := DeregisterBuffer(s, id, caller, latest).state;
    if s' != s {
      var r := s.registrations[id];
      RegistrationOwner(s, id);
      if r.authority.WorkerOwned() && !Live(s, r.authority) {
        RetiringKeeps(s, id, r.(state := Retired), s.freshness);
      } else {
        DeregisteredKeeps(s, id);
      }
    }
  }

  /** The effect of an accepted deregistration. */
  lemma DeregisteredKeeps(s: State, id: nat)
    requires Inv(s) && id in s.registrations && s.registrations[id].buffer in s.buffers
    requires s.registrations[id].authority.WorkerOwned() ==> Live(s, s.registrations[id].authority)
    ensures
      var r := s.registrations[id];
      var b := s.buffers[r.buffer];
      var s1 := s.(freshness := s.freshness + 1,
                   registrations := s.registrations[id := r.(state := Retired, handle := None,
                                                             freshness := s.freshness + 1)]);
      var b' := b.(registrationState := Unregistered, registrationId := 0, registrationGeneration := 0,
                   freshness := s.freshness + 2);
      Keeps(s, s1) && Keeps(s, s1.(freshness := s.freshness + 2, buffers := s.buffers[r.buffer := b']))
  {
    hide Inv, Keeps;
    var r := s.registrations[id];
    var b := s.buffers[r.buffer];
    RegistrationOwner(s, id);
    var r' := r.(state := Retired, handle := None, freshness := s.freshness + 1);
    RetiringKeeps(s, id, r', s.freshness + 1);
    var s1 := s.(freshness := s.freshness + 1, registrations := s.registrations[id := r']);
    KeepsInv(s, s1);
    var b' := b.(registrationState := Unregistered, registrationId := 0, registrationGeneration := 0,
                 freshness := s.freshness + 2);
    BufferNoteKeeps(s1, r.buffer, b', s.freshness + 2);
    KeepsCompose(s, s1, s1.(freshness := s.freshness + 2, buffers := s.buffers[r.buffer := b']));
  }

  lemma KeepsInv(s: State, s': State)
    requires Keeps(s, s')
    ensures Inv(s')
  {
    hide Inv, Evolves;
  }

  // ---------------------------------------------------------------------
  // Planning
  // ---------------------------------------------------------------------

  lemma RegisteredIsCurrent(s: State, k: nat)
    requires Inv(s) && k in s.registrations && s.registrations[k].state.Registered?
    ensures Current(s.registrations[k], s.registrations, s.buffers, s.endpoints, s.epoch, s.workers)
    ensures s.registrations[k].id == k && k != 0
  {
    hide WorkersSound, BuffersSound, EndpointsSound, DevicesSound;
    hide CapabilitiesSound, InventorySound, PlansSound, LedgerSound, Current;
  }

  /** Whatever happened since the snapshot, a plan that passes the recheck is sound at commit. */
  lemma CommittedPlanSound(s: State, req: Request, d: Decision, chosen: Option<nat>, explanation: Text)
    requires Inv(s) && req.source in s.buffers && req.destination in s.endpoints && Plannable(d)
    requires IsLatest(RegisteredOnly(s.registrations), s.buffers[req.source].id, s.endpoints[req.destination].id,
                      chosen)
    requires IsDirect(d.eligibility) ==> chosen.Some?
    ensures
      var reg := if chosen.Some? then Some(s.registrations[chosen.value]) else None;
      var plan := PlanFor(s, req, d, reg, explanation);
      && PlanSound(plan, s.buffers, s.endpoints, s.epoch) && WellStaged(plan)
      && (plan.Direct() ==> BoundTo(plan, s.registrations))
  {
    hide Inv;
    BufferIdIsKey(s, req.source);
    EndpointIdIsKey(s, req.destination);
    if chosen.Some? { RegisteredIsCurrent(s, chosen.value); }
  }

  lemma PlanAdded(s: State, s': State, plan: Plan, n: nat)
    requires Inv(s) && s.nextId < plan.id <= n && s'.plans == s.plans[plan.id := plan] && plan.authoritative
    requires PlanSound(plan, s.buffers, s.endpoints, s.epoch)
    requires s'.registrations == s.registrations && (plan.Direct() ==> BoundTo(plan, s.registrations))
    requires WellStaged(plan)
    ensures PlansSound(s'.plans, s.buffers, s.endpoints, s.epoch, n)
    ensures PlansEvolve(s, s') && PlansAreBound(s, s')
  {
    hide WellStaged;
    hide WorkersSound, BuffersSound, EndpointsSound, DevicesSound, CapabilitiesSound, InventorySound;
    hide RegistrationsSound;
    hide RegisteredSound, LedgerSound, PlanSound, BoundTo;
  }

  lemma LedgerSurvivesNewPlan(s: State, s': State, plan: Plan)
    requires Inv(s) && s.nextId < plan.id && s.nextId <= s'.nextId && s'.plans == s.plans[plan.id := plan]
    requires s'.attempts == s.attempts && s'.receipts == s.receipts && s'.verifications == s.verifications
    ensures LedgerSound(s'.plans, s.attempts, s.receipts, s.verifications, s'.nextId)
    ensures LedgerEvolves(s, s')
  {
    hide WorkersSound, BuffersSound, EndpointsSound, DevicesSound, CapabilitiesSound, InventorySound;
    hide RegistrationsSound;
    hide RegisteredSound, LedgerSound, LedgerEvolves, PlanSound;
    IdsGrow(s, s'.nextId);
    LedgerReframed(s.plans, s'.plans, s.attempts, s.receipts, s.verifications, s'.nextId);
    LedgerUnchanged(s, s');
  }

  lemma DirectPlanKeeps(s: State, plan: Plan)
    requires Inv(s) && plan.id == s.nextId + 1 && plan.authoritative
    requires PlanSound(plan, s.buffers, s.endpoints, s.epoch) && (plan.Direct() ==> BoundTo(plan, s.registrations))
    requires WellStaged(plan)
    ensures Keeps(s, s.(nextId := s.nextId + 2, plans := s.plans[plan.id := plan]))
  {
    hide WellStaged;
    hide WorkersSound, BuffersSound, EndpointsSound, DevicesSound, CapabilitiesSound, InventorySound;
    hide RegistrationsSound;
    hide RegisteredSound, PlansSound, LedgerSound, PlanSound, BoundTo;
    hide WorkersEvolve, BuffersEvolve, EndpointsEvolve, PlansEvolve, PlansAreBound, LedgerEvolves;
    var s' := s.(nextId := s.nextId + 2, plans := s.plans[plan.id := plan]);
    IdsGrow(s, s'.nextId);
    PlanAdded(s, s', plan, s'.nextId);
    LedgerSurvivesNewPlan(s, s', plan);
    WorkersUnchanged(s, s');
    BuffersUnchanged(s, s');
    EndpointsUnchanged(s, s');
  }

  lemma StagedPlanKeeps(s: State, plan: Plan, staging: Buffer, now: nat)
    requires Inv(s) && plan.id == s.nextId + 1 && plan.authoritative
    requires PlanSound(plan, s.buffers, s.endpoints, s.epoch) && (plan.Direct() ==> BoundTo(plan, s.registrations))
    requires WellStaged(plan)
    requires staging.id == s.nextId + 3 && staging.generation >= 1
    requires staging.authority.WorkerOwned() ==> Seen(staging.authority, s.epoch, s.maxBoot)
    ensures Keeps(s, s.(nextId := s.nextId + 3, freshness := now, buffers := s.buffers[staging.id := staging],
                        plans := s.plans[plan.id := plan]))
  {
    hide WellStaged;
    hide WorkersSound, EndpointsSound, DevicesSound, CapabilitiesSound, InventorySound, RegistrationsSound, Seen;
    hide RegisteredSound, PlansSound, LedgerSound, PlanSound, BoundTo;
    hide WorkersEvolve, BuffersEvolve, EndpointsEvolve, PlansEvolve, PlansAreBound, LedgerEvolves;
    var s' := s.(nextId := s.nextId + 3, freshness := now, buffers := s.buffers[staging.id := staging],
                 plans := s.plans[plan.id := plan]);
    IdsGrow(s, s'.nextId);
    PlanAdded(s, s', plan, s'.nextId);
    BufferAdded(s, s', staging);
    FencesSurviveNewBuffer(s, staging);
    PlansUnaffected(s'.plans, s.buffers, s'.buffers, s.endpoints, s.endpoints, s.epoch, s'.nextId);
    LedgerSurvivesNewPlan(s, s', plan);
    WorkersUnchanged(s, s');
    EndpointsUnchanged(s, s');
  }

  lemma OwnerIsSeen(s: State, k: nat)
    requires Inv(s) && k in s.buffers && s.buffers[k].authority.WorkerOwned()
    ensures Seen(s.buffers[k].authority, s.epoch, s.maxBoot)
  {
    hide Seen;
  }

  lemma CommitPlanKeeps(s: State, req: Request, d: Decision, chosen: Option<nat>, explanation: Text)
    requires Inv(s)
    requires req.source in s.buffers && req.destination in s.endpoints ==>
               IsLatest(RegisteredOnly(s.registrations), s.buffers[req.source].id, s.endpoints[req.destination].id,
                        chosen)
    ensures Keeps(s, CommitPlan(s, req, d, chosen, explanation).state)
  {
    hide WellStaged;
    hide Inv, Keeps, PlanSound, BoundTo, IsLatest, Seen;
    NothingKeeps(s);
    var step := CommitPlan(s, req, d, chosen, explanation);
    if step.reply.Ok? {
      var plan := step.reply.value;
      CommittedPlanSound(s, req, d, chosen, explanation);
      if IsDirect(d.eligibility) {
        DirectPlanKeeps(s, plan);
      } else {
        if s.buffers[req.source].authority.WorkerOwned() { OwnerIsSeen(s, req.source); }
        StagedPlanKeeps(s, plan, StagingBuffer(s, req), s.freshness + 1);
      }
    }
  }

  // ---------------------------------------------------------------------
  // The ledger
  // ---------------------------------------------------------------------

  /** Nothing but the ledger and the id counter changes. */
  ghost predicate OnlyLedger(s: State, s': State) {
    s.nextId <= s'.nextId &&
    s' == s.(nextId := s'.nextId, attempts := s'.attempts, receipts := s'.receipts, verifications := s'.verifications)
  }

  lemma LedgerStep(s: State, s': State)
    requires Inv(s) && OnlyLedger(s, s')
    requires LedgerSound(s'.plans, s'.attempts, s'.receipts, s'.verifications, s'.nextId) && LedgerEvolves(s, s')
    ensures Keeps(s, s')
  {
    hide WorkersSound, BuffersSound, EndpointsSound, DevicesSound, CapabilitiesSound, InventorySound;
    hide RegistrationsSound;
    hide RegisteredSound, PlansSound, LedgerSound;
    hide WorkersEvolve, BuffersEvolve, EndpointsEvolve, PlansEvolve, PlansAreBound, LedgerEvolves;
    IdsGrow(s, s'.nextId);
    WorkersUnchanged(s, s');
    BuffersUnchanged(s, s');
    EndpointsUnchanged(s, s');
    PlansUnchanged(s, s');
  }

  lemma AttemptAddedSound(plans: map<nat, Plan>, attempts: map<nat, Attempt>, receipts: map<nat, Receipt>,
                          verifications: map<nat, Verification>, n: nat, a: Attempt)
    requires LedgerSound(plans, attempts, receipts, verifications, n) && a.id == n + 1
    requires a.planId in plans && a.submittedBytes == plans[a.planId].expectedBytes && !a.completionCommitted
    requires Rightful(a.authority, plans[a.planId])
    requires a.state.InFlight? || a.state.TransferFailed?
    ensures LedgerSound(plans, attempts[a.id := a], receipts, verifications, n + 1)
  {
    hide HasVerification, ReceiptFor;
  }

  lemma AttemptAddedEvolves(s: State, s': State, a: Attempt)
    requires Inv(s) && s.nextId < a.id && s'.attempts == s.attempts[a.id := a] && s'.receipts == s.receipts
    requires !a.state.Completed? && a.planId in s.plans && MayBegin(s, s.plans[a.planId])
    requires a.authority.WorkerOwned() ==> Live(s, a.authority)
    ensures LedgerEvolves(s, s')
  {
    hide Live, Rightful;
    hide WorkersSound, BuffersSound, EndpointsSound, DevicesSound, CapabilitiesSound, InventorySound;
    hide RegistrationsSound;
    hide RegisteredSound, PlansSound, HasVerification, MayBegin, ReceiptFor;
  }

  lemma PlanIdIsKey(s: State, k: nat)
    requires Inv(s) && k in s.plans
    ensures s.plans[k].id == k
  {
    hide PlanSound;
  }

  lemma BeginTransferKeeps(s: State, planId: nat, caller: Authority, run: BackendRun)
    requires Inv(s)
    ensures Keeps(s, BeginTransfer(s, planId, caller, run).state)
  {
    hide Inv, Keeps, LedgerSound, LedgerEvolves, Live;
    NothingKeeps(s);
    var step := BeginTransfer(s, planId, caller, run);
    if step.reply.Ok? {
      PlanIdIsKey(s, planId);
      LedgerIsSound(s);
      AttemptAddedSound(s.plans, s.attempts, s.receipts, s.verifications, s.nextId, step.reply.value);
      AttemptAddedEvolves(s, step.state, step.reply.value);
      LedgerStep(s, step.state);
    }
  }

  lemma LedgerIsSound(s: State)
    requires Inv(s)
    ensures LedgerSound(s.plans, s.attempts, s.receipts, s.verifications, s.nextId)
  {
    hide LedgerSound;
  }

  /** A settled attempt, its receipt, and what they may not contradict. */
  ghost predicate Settles(s: State, k: nat, a: Attempt, r: Receipt) {
    && k in s.attempts && !s.attempts[k].completionCommitted
    && a.id == k && a.planId == s.attempts[k].planId && a.submittedBytes == s.attempts[k].submittedBytes
    && a.authority == s.attempts[k].authority
    && (a.state.Completed? || a.state.Cancelled? || a.state.TransferFailed?)
    && (a.state.Completed? ==>
          && a.completionCommitted && (a.submittedBytes == 0 || a.bytes == a.submittedBytes)
          && r.integrityVerified == a.integrityChecked
          && s.attempts[k].planId in s.plans && s.plans[s.attempts[k].planId].authoritative)
    && (a.state.Cancelled? ==> !a.completionCommitted)
    && (s.attempts[k].state.Cancelled? ==> a.state.Cancelled?)
    && r == ReceiptFor(a, a.state, r.integrityVerified)
    && (r.integrityVerified ==> a.integrityChecked && a.integrityPassed)
  }

  lemma SettledSound(s: State, k: nat, a: Attempt, r: Receipt, vs: map<nat, Verification>, n: nat)
    requires Inv(s) && Settles(s, k, a, r) && s.nextId <= n
    requires forall v :: v in s.verifications ==> v in vs && vs[v] == s.verifications[v]
    requires forall v :: v in vs ==> v <= n
    requires r.state.Completed? && r.integrityVerified ==> HasVerification(k, r, vs)
    ensures LedgerSound(s.plans, s.attempts[k := a], s.receipts[k := r], vs, n)
  {
    hide WorkersSound, BuffersSound, EndpointsSound, DevicesSound, CapabilitiesSound, InventorySound;
    hide RegistrationsSound;
    hide RegisteredSound, PlansSound;
    var receipts := s.receipts[k := r];
    forall j | j in receipts && receipts[j].state.Completed? && receipts[j].integrityVerified
      ensures HasVerification(j, receipts[j], vs)
    {
      if j != k { assert HasVerification(j, s.receipts[j], s.verifications); }
    }
  }

  lemma SettledEvolves(s: State, s': State, k: nat, a: Attempt, r: Receipt)
    requires Inv(s) && Settles(s, k, a, r)
    requires s'.attempts == s.attempts[k := a] && s'.receipts == s.receipts[k := r] && s'.plans == s.plans
    ensures LedgerEvolves(s, s')
  {
    hide Live, Rightful;
    hide WorkersSound, BuffersSound, EndpointsSound, DevicesSound, CapabilitiesSound, InventorySound;
    hide RegistrationsSound;
    hide RegisteredSound, PlansSound, HasVerification, MayBegin, ReceiptFor;
  }

  lemma SettleKeeps(s: State, k: nat, a: Attempt, r: Receipt)
    requires Inv(s) && Settles(s, k, a, r) && !(r.state.Completed? && r.integrityVerified)
    ensures Keeps(s, Settle(s, k, a, r))
  {
    hide Inv, Keeps, LedgerSound, LedgerEvolves, Settles, HasVerification;
    VerificationIds(s);
    SettledSound(s, k, a, r, s.verifications, s.nextId);
    SettledEvolves(s, Settle(s, k, a, r), k, a, r);
    LedgerStep(s, Settle(s, k, a, r));
  }

  lemma VerificationIds(s: State)
    requires Inv(s)
    ensures forall v :: v in s.verifications ==> v <= s.nextId
  {
    hide AttemptSound, HasVerification;
  }

  lemma SettleAndRecordKeeps(s: State, k: nat, a: Attempt, r: Receipt, passed: bool)
    requires Inv(s) && Settles(s, k, a, r) && (r.state.Completed? ==> passed)
    ensures Keeps(s, RecordVerification(Settle(s, k, a, r), a, passed))
  {
    hide Inv, Keeps, LedgerSound, LedgerEvolves;
    var s' := RecordVerification(Settle(s, k, a, r), a, passed);
    VerificationIds(s);
    if r.state.Completed? {
      assert s'.verifications[s'.nextId].attemptId == k;
      assert HasVerification(k, r, s'.verifications);
    }
    SettledSound(s, k, a, r, s'.verifications, s'.nextId);
    SettledEvolves(s, s', k, a, r);
    LedgerStep(s, s');
  }

  lemma AttemptFacts(s: State, k: nat)
    requires Inv(s) && k in s.attempts
    ensures AttemptSound(k, s.attempts[k], s.plans, s.receipts)
  {
    hide AttemptSound, HasVerification;
  }

  lemma CompleteTransferKeeps(s: State, id: nat, caller: Authority)
    requires Inv(s)
    ensures Keeps(s, CompleteTransfer(s, id, caller).state)
  {
    hide Inv, Keeps, Settle, RecordVerification, MaySettle;
    NothingKeeps(s);
    var s' := CompleteTransfer(s, id, caller).state;
    if s' != s {
      AttemptFacts(s, id);
      var a := s.attempts[id];
      if a.state.TransferFailed? {
        ReceiptFiled(s, id);
      } else if a.integrityChecked && !a.integrityPassed {
        var a' := a.(state := TransferFailed, completionCommitted := true);
        SettleAndRecordKeeps(s, id, a', ReceiptFor(a', TransferFailed, false), false);
      } else {
        var done := a.submittedBytes == 0 || a.bytes == a.submittedBytes;
        var a' := a.(state := if done then Completed else TransferFailed, completionCommitted := true);
        var r := ReceiptFor(a', a'.state, a'.integrityChecked);
        if done && a.integrityChecked { SettleAndRecordKeeps(s, id, a', r, true); } else { SettleKeeps(s, id, a', r); }
      }
    }
  }

  /** A receipt for a failed attempt that has none changes the attempt in nothing. */
  lemma ReceiptFiled(s: State, k: nat)
    requires Inv(s) && k in s.attempts && s.attempts[k].state.TransferFailed? && k !in s.receipts
    ensures Keeps(s, s.(receipts := s.receipts[k := ReceiptFor(s.attempts[k], TransferFailed, false)]))
  {
    hide Inv, Keeps;
    AttemptFacts(s, k);
    var a := s.attempts[k];
    var r := ReceiptFor(a, TransferFailed, false);
    assert s.attempts[k := a] == s.attempts;
    SettleKeeps(s, k, a, r);
  }

  lemma CancelTransferKeeps(s: State, id: nat, caller: Authority)
    requires Inv(s)
    ensures Keeps(s, CancelTransfer(s, id, caller).state)
  {
    hide Inv, Keeps, Settle, MaySettle;
    NothingKeeps(s);
    var step := CancelTransfer(s, id, caller);
    if step.reply.Ok? {
      AttemptFacts(s, id);
      var a := s.attempts[id].(state := Cancelled, completionCommitted := false);
      SettleKeeps(s, id, a, ReceiptFor(a, Cancelled, false));
    }
  }

  lemma VerificationAdded(s: State, v: Verification)
    requires Inv(s)
    ensures LedgerSound(s.plans, s.attempts, s.receipts, s.verifications[s.nextId + 1 := v], s.nextId + 1)
  {
    hide WorkersSound, BuffersSound, EndpointsSound, DevicesSound, CapabilitiesSound, InventorySound;
    hide RegistrationsSound;
    hide RegisteredSound, PlansSound, AttemptSound;
    var vs := s.verifications[s.nextId + 1 := v];
    forall k | k in s.receipts && s.receipts[k].state.Completed? && s.receipts[k].integrityVerified
      ensures HasVerification(k, s.receipts[k], vs)
    {
      var w :| w in s.verifications && s.verifications[w].attemptId == k && s.verifications[w].passed &&
               s.verifications[w].bytesChecked == s.receipts[k].bytes;
      assert vs[w] == s.verifications[w];
    }
  }

  lemma VerifyTransferKeeps(s: State, id: nat, passed: bool, bytesChecked: nat)
    requires Inv(s)
    ensures Keeps(s, VerifyTransfer(s, id, passed, bytesChecked).state)
  {
    hide Inv, Keeps, LedgerSound, LedgerEvolves;
    NothingKeeps(s);
    var step := VerifyTransfer(s, id, passed, bytesChecked);
    if step.reply.Ok? {
      VerificationAdded(s, step.reply.value);
      LedgerUnchanged(s, step.state);
      LedgerStep(s, step.state);
    }
  }
}
