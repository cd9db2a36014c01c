/** What ends a standing: exactly which steps take REGISTERED from a registration and authority from a plan.
    Everything else keeps both. */
module Fencing {
  import opened Types
  import opened PathPlanner
  import opened CoordinatorModel
  import opened Protocol
  import opened Invariants
  import opened TransferSteps
  import opened Grants
  import opened Runs
  import opened Histories
  import opened Lifetimes

  // ---------------------------------------------------------------------
  // What ends a standing
  // ---------------------------------------------------------------------

  /** The worker is in the table of live workers at this boot, in this epoch. */
  ghost predicate IsHere(s: State, a: Authority) {
    a.epoch == s.epoch && a.worker in s.workers && s.workers[a.worker] == a.boot
  }

  /** An object of no worker answers to anyone, one of a worker to that incarnation while it is here. */
  ghost predicate MayManage(s: State, owner: Authority, caller: Authority) {
    owner.worker != 0 ==> caller == owner && IsHere(s, owner)
  }

  ghost predicate MovesBuffer(s: State, a: Action, b: nat) {
    && (a.DoAdvanceBuffer? || a.DoRetireBuffer?) && a.id == b
    && b in s.buffers && MayManage(s, s.buffers[b].authority, a.caller)
  }

  ghost predicate MovesEndpoint(s: State, a: Action, e: nat) {
    a.DoAdvanceEndpoint? && a.id == e && e in s.endpoints && MayManage(s, s.endpoints[e].authority, a.caller)
  }

  ghost predicate Deregisters(s: State, a: Action, r: Registration) {
    && a.DoDeregisterBuffer? && a.id == r.id
    && (r.authority.worker != 0 && IsHere(s, r.authority) ==> a.caller == r.authority)
  }

  /** Its worker dies, the epoch advances, its buffer or its endpoint moves on, or it is deregistered. */
  ghost predicate EndsStanding(s: State, a: Action, r: Registration) {
    || (a.DoMarkWorkerDead? && a.worker != 0 && r.authority.worker == a.worker)
    || a.DoAdvanceEpoch?
    || MovesBuffer(s, a, r.buffer)
    || MovesEndpoint(s, a, r.endpoint)
    || Deregisters(s, a, r)
  }

  /** The epoch advances, or its source or its destination moves on. */
  ghost predicate EndsAuthority(s: State, a: Action, p: Plan) {
    a.DoAdvanceEpoch? || MovesBuffer(s, a, p.source) || MovesEndpoint(s, a, p.destination)
  }

  /** What becomes of a standing that ends. */
  function Ended(a: Action, r: Registration): RegistrationState {
    if a.DoDeregisterBuffer? then Retired else RevalidationRequired
  }

  /** What a step does to registration k, which is REGISTERED, and to plan p. */
  ghost predicate TreatsRegistration(s: State, a: Action, s': State, k: nat)
    requires k in s.registrations
  {
    && k in s'.registrations
    && if EndsStanding(s, a, s.registrations[k]) then s'.registrations[k].state == Ended(a, s.registrations[k])
       else s'.registrations[k] == s.registrations[k] || Overwrites(s, a, s', k)
  }

  /** A registration takes the id k and is REGISTERED in its place. */
  ghost predicate Overwrites(s: State, a: Action, s': State, k: nat) {
    && a.DoRegisterBuffer? && k == RegistrationId(s, a.grant)
    && k in s'.registrations && s'.registrations[k].state.Registered?
  }

  ghost predicate TreatsPlan(s: State, a: Action, s': State, k: nat)
    requires k in s.plans
  {
    && k in s'.plans
    && s'.plans[k] == if EndsAuthority(s, a, s.plans[k]) then s.plans[k].(authoritative := false) else s.plans[k]
  }

  // ---------------------------------------------------------------------
  // Each fencing step
  // ---------------------------------------------------------------------

  lemma DeathTreats(s: State, w: nat)
    ensures
      var s' := MarkWorkerDead(s, w);
      && s'.plans == s.plans && s'.registrations.Keys == s.registrations.Keys
      && forall k :: k in s.registrations ==>
           s'.registrations[k] == if w != 0 && s.registrations[k].authority.worker == w
                                  then s.registrations[k].(state := RevalidationRequired) else s.registrations[k]
  {
  }

  lemma EpochTreats(s: State)
    ensures
      var s' := AdvanceEpoch(s);
      && s'.plans.Keys == s.plans.Keys && s'.registrations.Keys == s.registrations.Keys
      && (forall k :: k in s.plans ==> s'.plans[k] == s.plans[k].(authoritative := false))
      && (forall k :: k in s.registrations && s.registrations[k].state.Registered? ==>
            s'.registrations[k] == s.registrations[k].(state := RevalidationRequired))
  {
  }

  /** Registrations and plans of this buffer are fenced, all others untouched. */
  ghost predicate FencesBuffer(s: State, s': State, b: nat) {
    && s'.registrations.Keys == s.registrations.Keys && s'.plans.Keys == s.plans.Keys
    && (forall k :: k in s.registrations ==>
          s'.registrations[k] == if s.registrations[k].buffer == b
                                 then s.registrations[k].(state := RevalidationRequired) else s.registrations[k])
    && (forall k :: k in s.plans ==>
          s'.plans[k] == if s.plans[k].source == b then s.plans[k].(authoritative := false) else s.plans[k])
  }

  ghost predicate FencesEndpoint(s: State, s': State, e: nat) {
    && s'.registrations.Keys == s.registrations.Keys && s'.plans.Keys == s.plans.Keys
    && (forall k :: k in s.registrations ==>
          s'.registrations[k] == if s.registrations[k].endpoint == e
                                 then s.registrations[k].(state := RevalidationRequired) else s.registrations[k])
    && (forall k :: k in s.plans ==>
          s'.plans[k] == if s.plans[k].destination == e then s.plans[k].(authoritative := false) else s.plans[k])
  }

  lemma BufferInvalidationFences(s: State, s1: State, b: nat)
    requires s1.registrations == s.registrations && s1.plans == s.plans
    ensures FencesBuffer(s, InvalidateBuffer(s1, b), b)
  {
  }

  lemma EndpointInvalidationFences(s: State, s1: State, e: nat)
    requires s1.registrations == s.registrations && s1.plans == s.plans
    ensures FencesEndpoint(s, InvalidateEndpoint(s1, e), e)
  {
  }

  lemma BufferInvalidationFrame(s: State, b: nat)
    ensures
      var s' := InvalidateBuffer(s, b);
      s' == s.(registrations := s'.registrations, plans := s'.plans)
  {
    hide Revalidate, Supersede;
  }

  lemma EndpointInvalidationFrame(s: State, e: nat)
    ensures
      var s' := InvalidateEndpoint(s, e);
      s' == s.(registrations := s'.registrations, plans := s'.plans)
  {
    hide Revalidate, Supersede;
  }

  /** Advancing a buffer: admitted exactly for who may manage it; then its generation moves by one, what depends
      on it is fenced, and nothing else changes. Otherwise nothing happens. */
  lemma AdvanceBufferAnswer(s: State, b: nat, caller: Authority)
    ensures
      var step := AdvanceBufferGeneration(s, b, caller);
      var s' := step.state;
      && (step.reply.Ok? <==> b in s.buffers && MayManage(s, s.buffers[b].authority, caller))
      && (step.reply.Err? ==> s' == s && step.reply.code == if b in s.buffers then StaleBoot else NotFound)
      && (step.reply.Ok? ==>
            && FencesBuffer(s, s', b) && s'.buffers == s.buffers[b := step.reply.value]
            && step.reply.value == s.buffers[b].(generation := s.buffers[b].generation + 1,
                                                 freshness := s.freshness + 1)
            && s' == s.(freshness := s.freshness + 1, buffers := s'.buffers, registrations := s'.registrations,
                        plans := s'.plans))
  {
    hide InvalidateBuffer, FencesBuffer;
    if b in s.buffers {
      var b' := s.buffers[b].(generation := s.buffers[b].generation + 1, freshness := s.freshness + 1);
      var s1 := s.(freshness := s.freshness + 1, buffers := s.buffers[b := b']);
      BufferInvalidationFences(s, s1, b);
      BufferInvalidationFrame(s1, b);
    }
  }

  /** Retiring a buffer: the same, with its lifecycle in place of its generation. */
  lemma RetireBufferAnswer(s: State, b: nat, caller: Authority)
    ensures
      var step := RetireBuffer(s, b, caller);
      var s' := step.state;
      && (step.reply.Ok? <==> b in s.buffers && MayManage(s, s.buffers[b].authority, caller))
      && (step.reply.Err? ==> s' == s && step.reply.code == if b in s.buffers then StaleBoot else NotFound)
      && (step.reply.Ok? ==>
            && FencesBuffer(s, s', b)
            && s'.buffers == s.buffers[b := s.buffers[b].(lifecycle := RetiredBuffer, freshness := s.freshness + 1)]
            && s' == s.(freshness := s.freshness + 1, buffers := s'.buffers, registrations := s'.registrations,
                        plans := s'.plans))
  {
    hide InvalidateBuffer, FencesBuffer;
    if b in s.buffers {
      var b' := s.buffers[b].(lifecycle := RetiredBuffer, freshness := s.freshness + 1);
      var s1 := s.(freshness := s.freshness + 1, buffers := s.buffers[b := b']);
      BufferInvalidationFences(s, s1, b);
      BufferInvalidationFrame(s1, b);
    }
  }

  lemma AdvanceEndpointAnswer(s: State, e: nat, caller: Authority)
    ensures
      var step := AdvanceEndpointGeneration(s, e, caller);
      var s' := step.state;
      && (step.reply.Ok? <==> e in s.endpoints && MayManage(s, s.endpoints[e].authority, caller))
      && (step.reply.Err? ==> s' == s && step.reply.code == if e in s.endpoints then StaleBoot else NotFound)
      && (step.reply.Ok? ==>
            && FencesEndpoint(s, s', e) && s'.endpoints == s.endpoints[e := step.reply.value]
            && step.reply.value ==
                 s.endpoints[e].(generation := s.endpoints[e].generation + 1, freshness := s.freshness + 1)
            && s' == s.(freshness := s.freshness + 1, endpoints := s'.endpoints, registrations := s'.registrations,
                        plans := s'.plans))
  {
    hide InvalidateEndpoint, FencesEndpoint;
    if e in s.endpoints {
      var e' := s.endpoints[e].(generation := s.endpoints[e].generation + 1, freshness := s.freshness + 1);
      var s1 := s.(freshness := s.freshness + 1, endpoints := s.endpoints[e := e']);
      EndpointInvalidationFences(s, s1, e);
      EndpointInvalidationFrame(s1, e);
    }
  }

  // ---------------------------------------------------------------------
  // Registration and deregistration
  // ---------------------------------------------------------------------

  /** No registration of its pair is newer. */
  ghost predicate IsNewest(rs: map<nat, Registration>, k: nat)
    requires k in rs
  {
    forall j :: j in rs && rs[j].Joins(rs[k].buffer, rs[k].endpoint) ==> rs[j].generation <= rs[k].generation
  }

  lemma LatestIsNewest(s: State, id: nat, latest: Option<nat>)
    requires Inv(s) && id in s.registrations
    requires IsLatest(s.registrations, s.registrations[id].buffer, s.registrations[id].endpoint, latest)
    ensures latest.Some? && latest.value in s.registrations && s.registrations[latest.value].id == latest.value
    ensures s.registrations[id].id == id && (latest.value == id <==> IsNewest(s.registrations, id))
  {
    hide WorkersSound, BuffersSound, EndpointsSound, DevicesSound, CapabilitiesSound, InventorySound, PlansSound;
    hide LedgerSound, RegisteredSound;
    assert s.registrations[id].Joins(s.registrations[id].buffer, s.registrations[id].endpoint);
  }

  /** Deregistration of a known registration that is not retired yet: nobody else may do it while its worker is
      here, and not if a newer registration of the pair exists; what is left of a worker that is gone anyone may
      clear away. */
  lemma DeregisterAnswer(s: State, id: nat, caller: Authority, latest: Option<nat>)
    requires Inv(s) && id in s.registrations
    requires IsLatest(s.registrations, s.registrations[id].buffer, s.registrations[id].endpoint, latest)
    requires !s.registrations[id].state.Retired? && !s.registrations[id].state.Unregistered?
    ensures
      var r := s.registrations[id];
      var step := DeregisterBuffer(s, id, caller, latest);
      var gone := r.authority.worker != 0 && !IsHere(s, r.authority);
      var theirs := r.authority.worker == 0 || caller == r.authority;
      && (step.reply == Ok(()) <==> gone || (theirs && IsNewest(s.registrations, id)))
      && (step.reply == Err(StaleBoot) <==> !gone && !theirs)
      && (step.reply == Err(StaleGeneration) <==> !gone && theirs && !IsNewest(s.registrations, id))
      && (step.reply.Err? ==> step.state == s)
      && (step.reply.Ok? ==> RetiresOnly(s, step.state, id))
      && (step.reply.Ok? && !gone ==> NoteCleared(s, step.state, id) && ClockAdvances(s, step.state, id))
      && (gone ==> step.state.buffers == s.buffers && step.state.freshness == s.freshness)
  {
    hide Inv, IsLatest, IsNewest, Release, RetiresOnly, NoteCleared, ClockAdvances, LeavesWorkers;
    LatestIsNewest(s, id, latest);
    ReleaseRetires(s, id);
    ClearingRetires(s, id);
  }

  lemma ReleaseRetires(s: State, id: nat)
    requires id in s.registrations && s.registrations[id].id == id
    ensures RetiresOnly(s, Release(s, id), id) && NoteCleared(s, Release(s, id), id)
    ensures ClockAdvances(s, Release(s, id), id)
  {
    hide RetiresOnly, NoteCleared, ClockAdvances, Release;
    ReleaseAdvancesClock(s, id);
    ReleaseRetiresOne(s, id);
    ReleaseClearsNote(s, id);
  }

  lemma ReleaseRetiresOne(s: State, id: nat)
    requires id in s.registrations
    ensures RetiresOnly(s, Release(s, id), id)
  {
    hide LeavesWorkers, Unnoted;
  }

  lemma ReleaseClearsNote(s: State, id: nat)
    requires id in s.registrations && s.registrations[id].id == id
    ensures NoteCleared(s, Release(s, id), id)
  {
    hide LeavesWorkers;
  }

  lemma ReleaseAdvancesClock(s: State, id: nat)
    requires id in s.registrations && s.registrations[id].id == id
    ensures ClockAdvances(s, Release(s, id), id)
  {
    hide LeavesWorkers;
  }

  lemma ClearingRetires(s: State, id: nat)
    requires id in s.registrations
    ensures RetiresOnly(s, s.(registrations := s.registrations[id := s.registrations[id].(state := Retired)]), id)
  {
  }

  /** Registration id is retired; no other registration changes, and of the buffers at most its own. */
  ghost predicate RetiresOnly(s: State, s': State, id: nat)
    requires id in s.registrations
  {
    && id in s'.registrations && s'.registrations == s.registrations[id := s'.registrations[id]]
    && s'.registrations[id] == s.registrations[id].(state := Retired, handle := s'.registrations[id].handle,
                                                    freshness := s'.registrations[id].freshness)
    && s' == s.(registrations := s'.registrations, freshness := s'.freshness, buffers := s'.buffers)
  }

  /** Exactly a buffer that notes the registration loses its note. */
  ghost predicate NoteCleared(s: State, s': State, id: nat)
    requires id in s.registrations
  {
    var b := s.registrations[id].buffer;
    if b in s.buffers && s.buffers[b].registrationId == id then
      && b in s'.buffers && s'.buffers == s.buffers[b := s'.buffers[b]]
      && s'.buffers[b] == s.buffers[b].(registrationState := Unregistered, registrationId := 0,
                                        registrationGeneration := 0, freshness := s'.buffers[b].freshness)
    else s'.buffers == s.buffers
  }

  /** The registration loses its handle and is stamped first, the buffer that notes it next. */
  ghost predicate ClockAdvances(s: State, s': State, id: nat)
    requires id in s.registrations
  {
    var b := s.registrations[id].buffer;
    && id in s'.registrations && s'.registrations[id].handle.None?
    && s'.registrations[id].freshness == s.freshness + 1
    && if b in s.buffers && s.buffers[b].registrationId == id then
         s'.freshness == s.freshness + 2 && b in s'.buffers && s'.buffers[b].freshness == s.freshness + 2
       else s'.freshness == s.freshness + 1
  }

  /** Nothing objects to the request before the pair's history is looked at. */
  ghost predicate Eligible(s: State, p: RegisterParams) {
    && p.buffer in s.buffers && s.buffers[p.buffer].lifecycle.Active?
    && p.endpoint in s.endpoints && !s.endpoints[p.endpoint].support.Unsupported?
    && |s.registrations| < s.limits.registrations
    && p.authority.epoch == s.epoch && (p.authority.worker != 0 ==> IsHere(s, p.authority))
    && (s.buffers[p.buffer].authority.worker != 0 ==> s.buffers[p.buffer].authority == p.authority)
  }

  /** k is a REGISTERED registration of the pair. */
  ghost predicate Serves(s: State, p: RegisterParams, k: nat) {
    k in s.registrations && s.registrations[k].state.Registered? && s.registrations[k].Joins(p.buffer, p.endpoint)
  }

  /** The record a grant leaves: for the objects as they are, one generation above the pair's history. */
  ghost predicate IsGrantFor(s: State, p: RegisterParams, grant: BackendGrant, r: Registration) {
    && r.id == (if grant.Granted? && grant.id != 0 then grant.id else s.nextId + 1)
    && r.state.Registered? && r.buffer == p.buffer && r.endpoint == p.endpoint
    && p.buffer in s.buffers && r.bufferGeneration == s.buffers[p.buffer].generation
    && p.endpoint in s.endpoints && r.endpointGeneration == s.endpoints[p.endpoint].generation
    && r.authority == p.authority && r.provider == p.provider && !r.duplicated
    && r.requiredCapabilities == p.requiredCapabilities && r.freshness == s.freshness + 1
    && r.support == (if grant.Granted? then grant.support else p.support)
    && r.provenance == (if grant.Granted? then grant.provenance else p.provenance)
    && r.handle == (if grant.Granted? then grant.handle else None)
    && Tops(s.registrations, r)
    && (r.generation == 1 ||
        exists j :: j in s.registrations && s.registrations[j].Joins(p.buffer, p.endpoint) &&
                    s.registrations[j].generation + 1 == r.generation)
  }

  lemma RejectionIff(s: State, p: RegisterParams)
    ensures RegisterRejection(s, p).None? <==> Eligible(s, p)
  {
  }

  lemma ServingIsLatest(s: State, p: RegisterParams, latest: Option<nat>, k: nat)
    requires Inv(s) && IsLatest(s.registrations, p.buffer, p.endpoint, latest) && Serves(s, p, k)
    ensures latest == Some(k) && s.registrations[k].id == k
    ensures
      && p.buffer in s.buffers && s.registrations[k].bufferGeneration == s.buffers[p.buffer].generation
      && p.endpoint in s.endpoints && s.registrations[k].endpointGeneration == s.endpoints[p.endpoint].generation
  {
    hide Inv;
    RegisteredIsCurrent(s, k);
    if latest.Some? { NeverDeregistering(s, latest.value); }
  }

  /** Registration: with a REGISTERED registration of the pair the answer is that one, marked as a duplicate, if
      authority and provider are the same, and a refusal if not; without one, the backend decides, and a grant is
      recorded. */
  lemma RegisterAnswer(s: State, p: RegisterParams, grant: BackendGrant, latest: Option<nat>)
    requires Inv(s) && IsLatest(s.registrations, p.buffer, p.endpoint, latest)
    ensures
      var step := RegisterBuffer(s, p, grant, latest);
      && (!Eligible(s, p) ==> step.reply.Err? && step.state == s)
      && (Eligible(s, p) ==> forall k :: Serves(s, p, k) ==>
            && step.state == s
            && step.reply == if s.registrations[k].authority == p.authority && s.registrations[k].provider == p.provider
                             then Ok(s.registrations[k].(duplicated := true)) else Err(RegistrationFailedError))
      && (Eligible(s, p) && (forall k :: !Serves(s, p, k)) ==>
            if grant.Refused? then step.reply == Err(RegistrationFailedError) && step.state == s
            else
              && step.reply.Ok? && IsGrantFor(s, p, grant, step.reply.value)
              && Records(s, step.state, grant, step.reply.value))
  {
    hide Inv, Eligible, RegisterRejection, IsGrantFor, Attach, Records, IsLatest, Retire;
    RejectionIff(s, p);
    if latest.Some? {
      LatestOfPair(s, p, latest.value, latest);
    }
    if Eligible(s, p) {
      if k :| Serves(s, p, k) {
        ServingIsLatest(s, p, latest, k);
        forall j | Serves(s, p, j) ensures j == k { ServingIsLatest(s, p, latest, j); }
      } else {
        if latest.Some? { assert !Serves(s, p, latest.value); }
        FreshGrant(s, p, grant, latest);
      }
    }
  }

  /** Which objection is raised to a request that is not eligible: the first in this order. */
  lemma RegisterRefusal(s: State, p: RegisterParams, grant: BackendGrant, latest: Option<nat>)
    requires IsLatest(s.registrations, p.buffer, p.endpoint, latest) && !Eligible(s, p)
    ensures
      var reply := RegisterBuffer(s, p, grant, latest).reply;
      if p.buffer !in s.buffers || s.buffers[p.buffer].lifecycle.RetiredBuffer? then reply == Err(InvalidBufferError)
      else if p.endpoint !in s.endpoints then reply == Err(NotFound)
      else if s.endpoints[p.endpoint].support.Unsupported? then reply == Err(RegistrationFailedError)
      else if |s.registrations| >= s.limits.registrations then reply == Err(ResourceLimit)
      else if p.authority.epoch != s.epoch then reply == Err(StaleEpoch)
      else if p.authority.worker != 0 && !IsHere(s, p.authority) then reply == Err(StaleBoot)
      else reply == Err(RegistrationFailedError)
  {
    hide IsLatest, Attach, Retire, AlreadyGranted;
    RejectionIff(s, p);
  }

  lemma LatestOfPair(s: State, p: RegisterParams, k: nat, latest: Option<nat>)
    requires Inv(s) && IsLatest(s.registrations, p.buffer, p.endpoint, latest) && latest == Some(k)
    ensures k in s.registrations && s.registrations[k].Joins(p.buffer, p.endpoint)
    ensures !s.registrations[k].state.Registering? && !s.registrations[k].state.Deregistering?
  {
    hide WorkersSound, BuffersSound, EndpointsSound, DevicesSound, CapabilitiesSound, InventorySound, PlansSound;
    hide LedgerSound, RegisteredSound;
  }

  /** The grant is filed under its id, its buffer notes it, and nothing else changes. */
  ghost predicate Records(s: State, s': State, grant: BackendGrant, r: Registration) {
    && s'.registrations == s.registrations[r.id := r]
    && r.buffer in s.buffers && r.buffer in s'.buffers && s'.buffers == s.buffers[r.buffer := s'.buffers[r.buffer]]
    && s'.buffers[r.buffer] == s.buffers[r.buffer].(registrationState := Registered, registrationId := r.id,
                                                    registrationGeneration := r.generation,
                                                    freshness := s.freshness + 2)
    && s' == s.(nextId := if grant.Granted? && grant.id != 0 then s.nextId else s.nextId + 1,
                freshness := s.freshness + 2, registrations := s'.registrations, buffers := s'.buffers)
  }

  lemma FreshGrant(s: State, p: RegisterParams, grant: BackendGrant, latest: Option<nat>)
    requires Inv(s) && IsLatest(s.registrations, p.buffer, p.endpoint, latest) && Eligible(s, p)
    ensures p.buffer in s.buffers && p.endpoint in s.endpoints
    ensures
      var generation := if latest.Some? then s.registrations[latest.value].generation + 1 else 1;
      var step := Attach(s, p, grant, generation);
      if grant.Refused? then step.reply == Err(RegistrationFailedError) && step.state == s
      else
        && step.reply.Ok? && IsGrantFor(s, p, grant, step.reply.value)
        && Records(s, step.state, grant, step.reply.value)
  {
    hide Inv, LeavesWorkers, IsHere;
    EndpointKey(s, p);
  }

  lemma EndpointKey(s: State, p: RegisterParams)
    requires Inv(s) && p.buffer in s.buffers && p.endpoint in s.endpoints
    ensures s.buffers[p.buffer].id == p.buffer && s.endpoints[p.endpoint].id == p.endpoint
  {
    hide WorkersSound, DevicesSound, CapabilitiesSound, InventorySound, PlansSound, LedgerSound, RegisteredSound;
    hide RegistrationsSound, Seen;
  }

  // ---------------------------------------------------------------------
  // Every step
  // ---------------------------------------------------------------------

  /** A step treats the registration, if it is REGISTERED, and the plan of this id as it should. */
  ghost predicate Treats(s: State, a: Action, s': State, k: nat) {
    && (k in s.registrations && s.registrations[k].state.Registered? ==> TreatsRegistration(s, a, s', k))
    && (k in s.plans ==> TreatsPlan(s, a, s', k))
  }

  lemma DeathStepTreats(s: State, w: nat, k: nat)
    ensures Treats(s, DoMarkWorkerDead(w), MarkWorkerDead(s, w), k)
  {
    hide MarkWorkerDead, IsHere;
    DeathTreats(s, w);
  }

  lemma EpochStepTreats(s: State, k: nat)
    ensures Treats(s, DoAdvanceEpoch, AdvanceEpoch(s), k)
  {
    hide AdvanceEpoch, IsHere;
    EpochTreats(s);
  }

  lemma AdvanceBufferStepTreats(s: State, b: nat, caller: Authority, k: nat)
    ensures Treats(s, DoAdvanceBuffer(b, caller), AdvanceBufferGeneration(s, b, caller).state, k)
  {
    hide AdvanceBufferGeneration, IsHere;
    AdvanceBufferAnswer(s, b, caller);
  }

  lemma RetireBufferStepTreats(s: State, b: nat, caller: Authority, k: nat)
    ensures Treats(s, DoRetireBuffer(b, caller), RetireBuffer(s, b, caller).state, k)
  {
    hide RetireBuffer, IsHere;
    RetireBufferAnswer(s, b, caller);
  }

  lemma AdvanceEndpointStepTreats(s: State, e: nat, caller: Authority, k: nat)
    ensures Treats(s, DoAdvanceEndpoint(e, caller), AdvanceEndpointGeneration(s, e, caller).state, k)
  {
    hide AdvanceEndpointGeneration, IsHere;
    AdvanceEndpointAnswer(s, e, caller);
  }

  lemma DeregisterStepTreats(s: State, id: nat, caller: Authority, latest: Option<nat>, k: nat)
    requires Inv(s)
    requires id in s.registrations ==>
               IsLatest(s.registrations, s.registrations[id].buffer, s.registrations[id].endpoint, latest)
    ensures Treats(s, DoDeregisterBuffer(id, caller, latest), DeregisterBuffer(s, id, caller, latest).state, k)
  {
    hide Inv, IsLatest, IsHere, DeregisterBuffer, IsNewest, LeavesWorkers, Treats, RetiresOnly, NoteCleared;
    var s', a := DeregisterBuffer(s, id, caller, latest).state, DoDeregisterBuffer(id, caller, latest);
    if k in s.registrations { NeverDeregistering(s, k); }
    if id !in s.registrations || s.registrations[id].state.Retired? || s.registrations[id].state.Unregistered? {
      DeregisterIsIdempotent(s, id, caller, latest);
      RefusedStepTreats(s, a, k);
    } else {
      DeregisterAnswer(s, id, caller, latest);
      NeverDeregistering(s, id);
      if s.registrations[id].state.Registered? { RegisteredIsNewest(s, id); }
      if DeregisterBuffer(s, id, caller, latest).reply.Ok? {
        RetiringStepTreats(s, a, s', k);
      } else {
        RefusedStepTreats(s, a, k);
      }
    }
  }

  lemma RefusedStepTreats(s: State, a: Action, k: nat)
    requires a.DoDeregisterBuffer? && (k in s.registrations ==> s.registrations[k].id == k)
    requires a.id in s.registrations && s.registrations[a.id].state.Registered? ==>
               !Deregisters(s, a, s.registrations[a.id])
    ensures Treats(s, a, s, k)
  {
    hide IsHere;
  }

  lemma RetiringStepTreats(s: State, a: Action, s': State, k: nat)
    requires a.DoDeregisterBuffer? && (k in s.registrations ==> s.registrations[k].id == k)
    requires a.id in s.registrations && RetiresOnly(s, s', a.id)
    requires s.registrations[a.id].state.Registered? ==> Deregisters(s, a, s.registrations[a.id])
    ensures Treats(s, a, s', k)
  {
    hide IsHere;
  }

  lemma DeregisterIsIdempotent(s: State, id: nat, caller: Authority, latest: Option<nat>)
    requires id in s.registrations ==>
               IsLatest(s.registrations, s.registrations[id].buffer, s.registrations[id].endpoint, latest)
    requires id !in s.registrations || s.registrations[id].state.Retired? || s.registrations[id].state.Unregistered?
    ensures DeregisterBuffer(s, id, caller, latest) == Step(s, if id in s.registrations then Ok(()) else Err(NotFound))
  {
    hide IsLatest, LeavesWorkers, Release;
  }

  lemma RegisteredIsNewest(s: State, k: nat)
    requires Inv(s) && k in s.registrations && s.registrations[k].state.Registered?
    ensures IsNewest(s.registrations, k)
  {
    hide Inv;
    RegisteredIsCurrent(s, k);
  }

  lemma RegisterStepTreats(s: State, p: RegisterParams, grant: BackendGrant, latest: Option<nat>, k: nat)
    requires Inv(s) && IsLatest(s.registrations, p.buffer, p.endpoint, latest)
    ensures Treats(s, DoRegisterBuffer(p, grant, latest), RegisterBuffer(s, p, grant, latest).state, k)
  {
    hide Inv, IsLatest, RegisterBuffer, Eligible, IsGrantFor, IsHere, Serves, Treats;
    RegisterAnswer(s, p, grant, latest);
    var s', a := RegisterBuffer(s, p, grant, latest).state, DoRegisterBuffer(p, grant, latest);
    if Eligible(s, p) && !grant.Refused? && forall j :: !Serves(s, p, j) {
      GrantTakesId(s, p, grant, latest);
      RecordingStepTreats(s, a, s', RegisterBuffer(s, p, grant, latest).reply.value, k);
    } else {
      QuietStepTreats(s, a, s', k);
    }
  }

  lemma RecordingStepTreats(s: State, a: Action, s': State, r: Registration, k: nat)
    requires a.DoRegisterBuffer? && Records(s, s', a.grant, r)
    requires r.id == RegistrationId(s, a.grant) && r.state.Registered?
    ensures Treats(s, a, s', k)
  {
  }

  lemma GrantTakesId(s: State, p: RegisterParams, grant: BackendGrant, latest: Option<nat>)
    requires IsLatest(s.registrations, p.buffer, p.endpoint, latest)
    requires RegisterBuffer(s, p, grant, latest).reply.Ok?
    requires IsGrantFor(s, p, grant, RegisterBuffer(s, p, grant, latest).reply.value)
    ensures RegisterBuffer(s, p, grant, latest).reply.value.id == RegistrationId(s, grant)
    ensures RegisterBuffer(s, p, grant, latest).reply.value.state.Registered?
  {
    hide RegisterBuffer, Tops;
  }

  lemma QuietStepTreats(s: State, a: Action, s': State, k: nat)
    requires s'.registrations == s.registrations && s'.plans == s.plans && !Fences(a)
    ensures Treats(s, a, s', k)
  {
  }

  lemma CommitStepTreats(s: State, a: Action, s': State, p: Plan, k: nat)
    requires Inv(s) && a.DoCommitPlan? && s'.registrations == s.registrations && s.nextId < p.id
    requires s'.plans == s.plans || s'.plans == s.plans[p.id := p]
    ensures Treats(s, a, s', k)
  {
    hide WorkersSound, BuffersSound, EndpointsSound, DevicesSound, CapabilitiesSound, InventorySound;
    hide RegistrationsSound, RegisteredSound, LedgerSound, PlanSound;
  }

  lemma CommitIsTreated(sys: System, a: Action, k: nat)
    requires Enabled(sys, a) && Inv(sys.st) && a.DoCommitPlan?
    ensures Treats(sys.st, a, NextState(sys, a), k)
  {
    hide Inv, IsLatest, RegisteredOnly, CommitPlan, Treats;
    var s, req, d := sys.st, sys.calls[a.call].request, sys.calls[a.call].decision;
    CommitTouchesOnlyPlans(s, req, d, a.chosen, a.explanation);
    var step := CommitPlan(s, req, d, a.chosen, a.explanation);
    if step.reply.Ok? {
      CommittedIdIsNew(s, req, d, a.chosen, a.explanation);
      CommitStepTreats(s, a, step.state, step.reply.value, k);
    } else {
      QuietStepTreats(s, a, step.state, k);
    }
  }

  lemma CommittedIdIsNew(s: State, req: Request, d: Decision, chosen: Option<nat>, explanation: Text)
    requires req.source in s.buffers && req.destination in s.endpoints ==>
               IsLatest(RegisteredOnly(s.registrations), s.buffers[req.source].id, s.endpoints[req.destination].id,
                        chosen)
    requires CommitPlan(s, req, d, chosen, explanation).reply.Ok?
    ensures CommitPlan(s, req, d, chosen, explanation).reply.value.id == s.nextId + 1
  {
    hide IsLatest, RegisteredOnly, FilePlan, Stages, Plannable, LeavesWorkers;
  }

  lemma FencingIsTreated(sys: System, a: Action, k: nat)
    requires Enabled(sys, a) && Inv(sys.st) && (Fences(a) || a.DoRegisterBuffer?)
    ensures Treats(sys.st, a, NextState(sys, a), k)
  {
    hide IsLatest, IsEvidence, IsNamed, IsObservation, RegisteredOnly, Treats, Inv;
    hide RegisterWorker, MarkWorkerDead, AdvanceEpoch, CreateBuffer, AdvanceBufferGeneration, RetireBuffer, AddDevice;
    hide AddEndpoint, AdvanceEndpointGeneration, SetEndpointHealth, AddNic, AddStorage, AddProvider, PublishCapability;
    hide RevokeCapability, RegisterBuffer, DeregisterBuffer, CommitPlan, BeginTransfer, CompleteTransfer;
    hide CancelTransfer, VerifyTransfer;
    var s := sys.st;
    if a.DoMarkWorkerDead? {
      DeathStepTreats(s, a.worker, k);
    } else if a.DoAdvanceEpoch? {
      EpochStepTreats(s, k);
    } else if a.DoAdvanceBuffer? {
      AdvanceBufferStepTreats(s, a.id, a.caller, k);
    } else if a.DoRetireBuffer? {
      RetireBufferStepTreats(s, a.id, a.caller, k);
    } else if a.DoAdvanceEndpoint? {
      AdvanceEndpointStepTreats(s, a.id, a.caller, k);
    } else if a.DoDeregisterBuffer? {
      DeregisterStepTreats(s, a.id, a.caller, a.latest, k);
    } else {
      RegisterStepTreats(s, a.registration, a.grant, a.latest, k);
    }
  }

  /** Every step of a sound coordinator treats every registration and every plan as it should. */
  lemma StepTreats(sys: System, a: Action, sys': System, k: nat)
    requires IsStep(sys, a, sys') && Inv(sys.st)
    ensures Treats(sys.st, a, sys'.st, k)
  {
    hide Enabled, NextState, NextCalls, Treats, Inv;
    if a.DoCommitPlan? {
      CommitIsTreated(sys, a, k);
    } else if Fences(a) || a.DoRegisterBuffer? {
      FencingIsTreated(sys, a, k);
    } else {
      OthersTouchNothing(sys, a);
      QuietStepTreats(sys.st, a, sys'.st, k);
    }
  }

  /** A REGISTERED registration stops being so exactly in a step that ends its standing; a step that does not
      leaves it as it was, unless another registration takes its id. */
  lemma StandingEndsIff(sys: System, a: Action, sys': System, k: nat)
    requires IsStep(sys, a, sys') && Inv(sys.st)
    requires k in sys.st.registrations && sys.st.registrations[k].state.Registered?
    ensures k in sys'.st.registrations
    ensures sys'.st.registrations[k].state.Registered? <==> !EndsStanding(sys.st, a, sys.st.registrations[k])
    ensures !EndsStanding(sys.st, a, sys.st.registrations[k]) ==>
              sys'.st.registrations[k] == sys.st.registrations[k] || Overwrites(sys.st, a, sys'.st, k)
    ensures EndsStanding(sys.st, a, sys.st.registrations[k]) ==>
              sys'.st.registrations[k].state == Ended(a, sys.st.registrations[k])
  {
    hide IsStep, Inv, EndsStanding;
    StepTreats(sys, a, sys', k);
  }

  /** An authoritative plan loses its authority exactly in a step that ends it, and never changes otherwise. */
  lemma AuthorityEndsIff(sys: System, a: Action, sys': System, k: nat)
    requires IsStep(sys, a, sys') && Inv(sys.st) && k in sys.st.plans && sys.st.plans[k].authoritative
    ensures k in sys'.st.plans
    ensures sys'.st.plans[k].authoritative <==> !EndsAuthority(sys.st, a, sys.st.plans[k])
    ensures sys'.st.plans[k] == sys.st.plans[k].(authoritative := sys'.st.plans[k].authoritative)
  {
    hide IsStep, Inv, EndsAuthority;
    StepTreats(sys, a, sys', k);
  }

  // ---------------------------------------------------------------------
  // The law over states, and over runs
  // ---------------------------------------------------------------------

  /** A standing is lost only for a reason that shows: the registration was retired, its worker is gone, or what
      it was made for is no longer so. */
  ghost predicate LosesStanding(s: State, s': State, k: nat)
    requires k in s.registrations && k in s'.registrations
  {
    var r := s.registrations[k];
    || s'.registrations[k].state.Retired?
    || (r.authority.worker != 0 && r.authority.worker !in s'.workers)
    || r.authority.epoch != s'.epoch
    || r.buffer !in s'.buffers || s'.buffers[r.buffer].generation != r.bufferGeneration
    || !s'.buffers[r.buffer].lifecycle.Active?
    || r.endpoint !in s'.endpoints || s'.endpoints[r.endpoint].generation != r.endpointGeneration
  }

  ghost predicate StandingsEvolve(s: State, s': State) {
    forall k :: k in s.registrations && s.registrations[k].state.Registered? ==>
      k in s'.registrations && (s'.registrations[k].state.Registered? || LosesStanding(s, s', k))
  }

  lemma MovedBufferShows(s: State, a: Action, k: nat)
    requires Inv(s) && k in s.registrations && s.registrations[k].state.Registered?
    requires MovesBuffer(s, a, s.registrations[k].buffer)
    ensures
      var r := s.registrations[k];
      var s' := if a.DoAdvanceBuffer? then AdvanceBufferGeneration(s, a.id, a.caller).state
                else RetireBuffer(s, a.id, a.caller).state;
      r.buffer in s'.buffers && (s'.buffers[r.buffer].generation != r.bufferGeneration ||
                                 !s'.buffers[r.buffer].lifecycle.Active?)
  {
    hide Inv, AdvanceBufferGeneration, RetireBuffer, FencesBuffer, IsHere;
    RegisteredIsCurrent(s, k);
    AdvanceBufferAnswer(s, a.id, a.caller);
    RetireBufferAnswer(s, a.id, a.caller);
  }

  lemma MovedEndpointShows(s: State, a: Action, k: nat)
    requires Inv(s) && k in s.registrations && s.registrations[k].state.Registered?
    requires MovesEndpoint(s, a, s.registrations[k].endpoint)
    ensures
      var r := s.registrations[k];
      var s' := AdvanceEndpointGeneration(s, a.id, a.caller).state;
      r.endpoint in s'.endpoints && s'.endpoints[r.endpoint].generation != r.endpointGeneration
  {
    hide Inv, AdvanceEndpointGeneration, FencesEndpoint, IsHere;
    RegisteredIsCurrent(s, k);
    AdvanceEndpointAnswer(s, a.id, a.caller);
  }

  lemma MovesShow(sys: System, a: Action, sys': System, k: nat)
    requires IsStep(sys, a, sys') && Inv(sys.st)
    requires k in sys.st.registrations && sys.st.registrations[k].state.Registered? && k in sys'.st.registrations
    requires MovesBuffer(sys.st, a, sys.st.registrations[k].buffer) ||
             MovesEndpoint(sys.st, a, sys.st.registrations[k].endpoint)
    ensures LosesStanding(sys.st, sys'.st, k)
  {
    hide Inv, IsLatest, IsEvidence, RegisteredOnly, IsHere;
    hide AdvanceBufferGeneration, RetireBuffer, AdvanceEndpointGeneration;
    if MovesBuffer(sys.st, a, sys.st.registrations[k].buffer) {
      MovedBufferShows(sys.st, a, k);
    } else {
      MovedEndpointShows(sys.st, a, k);
    }
  }

  lemma DeathsShow(sys: System, a: Action, sys': System, k: nat)
    requires IsStep(sys, a, sys') && Inv(sys.st)
    requires k in sys.st.registrations && sys.st.registrations[k].state.Registered? && k in sys'.st.registrations
    requires a.DoAdvanceEpoch? || (a.DoMarkWorkerDead? && sys.st.registrations[k].authority.worker == a.worker != 0)
    ensures LosesStanding(sys.st, sys'.st, k)
  {
    hide Inv, Revalidate, Supersede;
    RegisteredIsCurrent(sys.st, k);
  }

  /** No step takes a standing away without such a reason. */
  lemma StandingsEvolveInStep(sys: System, a: Action, sys': System)
    requires IsStep(sys, a, sys') && Inv(sys.st)
    ensures StandingsEvolve(sys.st, sys'.st)
  {
    hide IsStep, Inv, LosesStanding, MovesBuffer, MovesEndpoint;
    var s, s' := sys.st, sys'.st;
    forall k | k in s.registrations && s.registrations[k].state.Registered?
      ensures k in s'.registrations && (s'.registrations[k].state.Registered? || LosesStanding(s, s', k))
    {
      StandingEndsIff(sys, a, sys', k);
      var r := s.registrations[k];
      if MovesBuffer(s, a, r.buffer) || MovesEndpoint(s, a, r.endpoint) {
        MovesShow(sys, a, sys', k);
      } else if a.DoAdvanceEpoch? || (a.DoMarkWorkerDead? && r.authority.worker == a.worker != 0) {
        DeathsShow(sys, a, sys', k);
      } else if EndsStanding(s, a, r) {
        RetirementShows(s, s', k);
      }
    }
  }

  lemma RetirementShows(s: State, s': State, k: nat)
    requires k in s.registrations && k in s'.registrations && s'.registrations[k].state.Retired?
    ensures LosesStanding(s, s', k)
  {
  }

  /** The law holds across every step of every run. */
  lemma StandingsEvolveInRun(r: Run, i: nat)
    requires IsLife(r) && i + 1 < |r.states|
    ensures StandingsEvolve(r.states[i].st, r.states[i + 1].st)
  {
    hide IsLife, IsStep, Lawful, Powerless, Inv, StandingsEvolve;
    LifeIsLawful(r);
    SoundAt(StatesOf(r), i);
    StepOf(r, i);
    StandingsEvolveInStep(r.states[i], r.actions[i], r.states[i + 1]);
  }

  /** In every run, a registration that is REGISTERED at one moment and not at a later one lost its standing in a
      step between that ended it. */
  lemma {:induction false} StandingWasEnded(r: Run, i: nat, j: nat, k: nat) returns (m: nat)
    requires IsLife(r) && i <= j < |r.states| && k in r.states[i].st.registrations
    requires r.states[i].st.registrations[k].state.Registered?
    requires k in r.states[j].st.registrations ==> !r.states[j].st.registrations[k].state.Registered?
    ensures i <= m < j && m < |r.actions| && k in r.states[m].st.registrations
    ensures EndsStanding(r.states[m].st, r.actions[m], r.states[m].st.registrations[k])
    decreases j - i
  {
    hide IsLife, IsRun, IsStep, Lawful, Powerless, Inv, EndsStanding;
    LifeIsLawful(r);
    SoundAt(StatesOf(r), i);
    StepOf(r, i);
    StandingEndsIff(r.states[i], r.actions[i], r.states[i + 1], k);
    if EndsStanding(r.states[i].st, r.actions[i], r.states[i].st.registrations[k]) {
      m := i;
    } else {
      m := StandingWasEnded(r, i + 1, j, k);
    }
  }

  /** Likewise for the authority of a plan. */
  lemma {:induction false} AuthorityWasEnded(r: Run, i: nat, j: nat, k: nat) returns (m: nat)
    requires IsLife(r) && i <= j < |r.states| && k in r.states[i].st.plans && r.states[i].st.plans[k].authoritative
    requires k in r.states[j].st.plans ==> !r.states[j].st.plans[k].authoritative
    ensures i <= m < j && m < |r.actions| && k in r.states[m].st.plans
    ensures EndsAuthority(r.states[m].st, r.actions[m], r.states[m].st.plans[k])
    decreases j - i
  {
    hide IsLife, IsRun, IsStep, Lawful, Powerless, Inv, EndsAuthority;
    LifeIsLawful(r);
    SoundAt(StatesOf(r), i);
    StepOf(r, i);
    AuthorityEndsIff(r.states[i], r.actions[i], r.states[i + 1], k);
    if EndsAuthority(r.states[i].st, r.actions[i], r.states[i].st.plans[k]) {
      m := i;
    } else {
      m := AuthorityWasEnded(r, i + 1, j, k);
    }
  }
}
