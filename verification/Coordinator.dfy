/** The coordinator as it runs: one object whose state its operations update in place. Each operation is
    proved to do what the model says; what a table walk happens to pick comes back as a ghost result. */
module Coordinator {
  import opened Types
  import opened PathPlanner
  import opened CoordinatorModel
  import opened Invariants
  import Agreement
  import Model = CoordinatorModel

  // ---------------------------------------------------------------------
  // Walks over tables, in no particular order
  // ---------------------------------------------------------------------

  /** Mark every registration that `hit` picks. */
  method MarkForRevalidation(rs: map<nat, Registration>, hit: Registration -> bool)
    returns (marked: map<nat, Registration>)
    ensures marked == Revalidate(rs, set k | k in rs && hit(rs[k]))
  {
    marked := rs;
    var todo := rs.Keys;
    while todo != {}
      invariant todo <= rs.Keys && marked.Keys == rs.Keys
      invariant forall k :: k in rs ==>
        marked[k] == if k !in todo && hit(rs[k]) then rs[k].(state := RevalidationRequired) else rs[k]
    {
      var k :| k in todo;
      if hit(marked[k]) { marked := marked[k := marked[k].(state := RevalidationRequired)]; }
      todo := todo - {k};
    }
  }

  method ClearAuthority(ps: map<nat, Plan>, hit: Plan -> bool) returns (cleared: map<nat, Plan>)
    ensures cleared == Supersede(ps, set k | k in ps && hit(ps[k]))
  {
    cleared := ps;
    var todo := ps.Keys;
    while todo != {}
      invariant todo <= ps.Keys && cleared.Keys == ps.Keys
      invariant forall k :: k in ps ==>
        cleared[k] == if k !in todo && hit(ps[k]) then ps[k].(authoritative := false) else ps[k]
    {
      var k :| k in todo;
      if hit(cleared[k]) { cleared := cleared[k := cleared[k].(authoritative := false)]; }
      todo := todo - {k};
    }
  }

  method RetireById(rs: map<nat, Registration>, id: nat) returns (retired: map<nat, Registration>)
    ensures retired == Retire(rs, id)
  {
    retired := rs;
    var todo := rs.Keys;
    while todo != {}
      invariant todo <= rs.Keys && retired.Keys == rs.Keys
      invariant forall k :: k in rs ==>
        retired[k] == if k !in todo && rs[k].id == id then rs[k].(state := Retired) else rs[k]
    {
      var k :| k in todo;
      if retired[k].id == id { retired := retired[k := retired[k].(state := Retired)]; }
      todo := todo - {k};
    }
  }

  /** The newest registration of a pair, or the newest that is REGISTERED. */
  method FindLatest(rs: map<nat, Registration>, b: nat, e: nat, active: bool) returns (latest: Option<nat>)
    ensures IsLatest(if active then RegisteredOnly(rs) else rs, b, e, latest)
  {
    latest := None;
    ghost var pool := if active then RegisteredOnly(rs) else rs;
    var todo := rs.Keys;
    while todo != {}
      invariant todo <= rs.Keys
      invariant latest.Some? ==> latest.value in pool && pool[latest.value].Joins(b, e)
      invariant forall k :: k in pool && k !in todo && pool[k].Joins(b, e) ==>
        latest.Some? && pool[k].generation <= pool[latest.value].generation
    {
      var k :| k in todo;
      var r := rs[k];
      if r.Joins(b, e) && (active ==> r.state.Registered?) {
        if latest.None? || r.generation > rs[latest.value].generation { latest := Some(k); }
      }
      todo := todo - {k};
    }
  }

  method FindObservation(cs: map<nat, Capability>, provider: Text, capability: Text) returns (slot: Option<nat>)
    ensures IsObservation(cs, provider, capability, slot)
  {
    var todo := cs.Keys;
    while todo != {}
      invariant todo <= cs.Keys
      invariant forall k :: k in cs && k !in todo ==> !(cs[k].provider == provider && cs[k].capability == capability)
    {
      var k :| k in todo;
      if cs[k].provider == provider && cs[k].capability == capability { return Some(k); }
      todo := todo - {k};
    }
    slot := None;
  }

  method FindNamed(ps: map<nat, Provider>, name: Text) returns (slot: Option<nat>)
    ensures IsNamed(ps, name, slot)
  {
    var todo := ps.Keys;
    while todo != {}
      invariant todo <= ps.Keys
      invariant forall k :: k in ps && k !in todo ==> ps[k].name != name
    {
      var k :| k in todo;
      if ps[k].name == name { return Some(k); }
      todo := todo - {k};
    }
    slot := None;
  }

  method Values<T(!new)>(m: map<nat, T>) returns (vs: seq<T>)
    ensures Lists(m, vs)
  {
    vs := [];
    ghost var ks: seq<nat> := [];
    var todo := m.Keys;
    while todo != {}
      invariant todo <= m.Keys && |ks| == |vs|
      invariant forall i, j :: 0 <= i < j < |ks| ==> ks[i] != ks[j]
      invariant forall k :: k in ks <==> k in m && k !in todo
      invariant forall i :: 0 <= i < |ks| ==> ks[i] in m && vs[i] == m[ks[i]]
    {
      var k :| k in todo;
      vs, ks := vs + [m[k]], ks + [k];
      todo := todo - {k};
    }
    assert ListsBy(m, vs, ks);
  }

  lemma {:induction false} LatestExists(rs: map<nat, Registration>, b: nat, e: nat) returns (latest: Option<nat>)
    ensures IsLatest(rs, b, e, latest)
    decreases |rs|
  {
    latest := None;
    if k :| k in rs {
      var fewer := rs - {k};
      assert fewer.Keys == rs.Keys - {k};
      latest := LatestExists(fewer, b, e);
      if rs[k].Joins(b, e) && (latest.None? || rs[k].generation > rs[latest.value].generation) { latest := Some(k); }
      assert forall i :: i in rs ==> i == k || (i in fewer && fewer[i] == rs[i]);
    }
  }

  lemma LatestIsFiled(rs: map<nat, Registration>, b: nat, e: nat, latest: Option<nat>)
    requires IsLatest(rs, b, e, latest)
    ensures latest.Some? ==> latest.value in rs
  {
  }

  lemma PlanIsFiled(s: State, req: Request, plan: Plan)
    requires req.source in s.buffers
    ensures
      FilePlan(s, req, plan) ==
        if plan.Direct() then s.(nextId := s.nextId + 2, plans := s.plans[plan.id := plan])
        else s.(nextId := s.nextId + 3, freshness := s.freshness + 1, plans := s.plans[plan.id := plan],
                buffers := s.buffers[s.nextId + 3 :=
                  Staging(s.nextId + 3, s.buffers[req.source].authority, req.size, s.freshness + 1)])
  {
  }

  lemma RegisteredOnlyIsPart(rs: map<nat, Registration>)
    ensures forall k :: k in RegisteredOnly(rs) ==> k in rs
  {
  }

  lemma NamedIsFiled(ps: map<nat, Provider>, name: Text, slot: Option<nat>)
    requires IsNamed(ps, name, slot)
    ensures slot.Some? ==> slot.value in ps
  {
  }

  // ---------------------------------------------------------------------
  // The coordinator
  // ---------------------------------------------------------------------

  class Coordinator {
    var state: State

    constructor (epoch: nat)
      ensures state == InitialState(epoch)
    {
      state := InitialState(epoch);
    }

    method SetLimits(limits: Limits)
      modifies this
      ensures state == old(state).(limits := limits)
    {
      state := state.(limits := limits);
    }

    method NextId() returns (id: nat)
      modifies this
      ensures id == old(state).nextId + 1 && state == old(state).(nextId := id)
    {
      state := state.(nextId := state.nextId + 1);
      id := state.nextId;
    }

    method NextFreshness() returns (now: nat)
      modifies this
      ensures now == old(state).freshness + 1 && state == old(state).(freshness := now)
    {
      state := state.(freshness := state.freshness + 1);
      now := state.freshness;
    }

    method WorkerLive(a: Authority) returns (live: bool)
      ensures live == Live(state, a)
    {
      if a.epoch != state.epoch { return false; }
      if !a.WorkerOwned() { return true; }
      if a.worker !in state.workers { return false; }
      live := state.workers[a.worker] == a.boot;
    }

    method InvalidateBufferDependents(b: nat)
      modifies this
      ensures state == InvalidateBuffer(old(state), b)
    {
      hide Revalidate, Supersede;
      var rs, ps := state.registrations, state.plans;
      var ofBuffer := (r: Registration) => r.buffer == b;
      var marked := MarkForRevalidation(rs, ofBuffer);
      assert (set k | k in rs && ofBuffer(rs[k])) == (set k | k in rs && rs[k].buffer == b);
      var fromBuffer := (p: Plan) => p.source == b;
      var cleared := ClearAuthority(ps, fromBuffer);
      assert (set k | k in ps && fromBuffer(ps[k])) == (set k | k in ps && ps[k].source == b);
      state := state.(registrations := marked, plans := cleared);
    }

    method InvalidateEndpointDependents(e: nat)
      modifies this
      ensures state == InvalidateEndpoint(old(state), e)
    {
      hide Revalidate, Supersede;
      var rs, ps := state.registrations, state.plans;
      var ofEndpoint := (r: Registration) => r.endpoint == e;
      var marked := MarkForRevalidation(rs, ofEndpoint);
      assert (set k | k in rs && ofEndpoint(rs[k])) == (set k | k in rs && rs[k].endpoint == e);
      var toEndpoint := (p: Plan) => p.destination == e;
      var cleared := ClearAuthority(ps, toEndpoint);
      assert (set k | k in ps && toEndpoint(ps[k])) == (set k | k in ps && ps[k].destination == e);
      state := state.(registrations := marked, plans := cleared);
    }

    // -------------------------------------------------------------------
    // Workers
    // -------------------------------------------------------------------

    method Admit(worker: nat, boot: nat)
      modifies this
      ensures state == old(state).(workers := old(state).workers[worker := boot],
                                   maxBoot := old(state).maxBoot[worker := boot])
    {
      state := state.(maxBoot := state.maxBoot[worker := boot]);
      state := state.(workers := state.workers[worker := boot]);
    }

    method RegisterWorker(worker: nat, boot: nat, epoch: nat) returns (reply: Result<()>)
      modifies this
      ensures Step(state, reply) == Model.RegisterWorker(old(state), worker, boot, epoch)
    {
      hide LeavesGrants, LeavesWorkers;
      if epoch != state.epoch { return Err(StaleEpoch); }
      if worker == 0 { return Err(InvalidArgument); }
      var prev := if worker in state.maxBoot then state.maxBoot[worker] else 0;
      if boot < prev { return Err(StaleBoot); }
      if prev != 0 {
        if worker in state.workers {
          if state.workers[worker] == boot { return Ok(()); }
          Admit(worker, boot);
          return Ok(());
        }
        if boot <= prev { return Err(StaleBoot); }
        Admit(worker, boot);
        return Ok(());
      }
      Admit(worker, boot);
      reply := Ok(());
    }

    method MarkWorkerDead(worker: nat)
      modifies this
      ensures state == Model.MarkWorkerDead(old(state), worker)
    {
      hide Revalidate;
      state := state.(workers := state.workers - {worker});
      var rs := state.registrations;
      var ofWorker := (r: Registration) => r.authority.worker == worker && r.authority.WorkerOwned();
      var marked := MarkForRevalidation(rs, ofWorker);
      assert (set k | k in rs && ofWorker(rs[k])) ==
             (set k | k in rs && rs[k].authority.worker == worker && worker != 0);
      state := state.(registrations := marked);
    }

    method AdvanceEpoch()
      modifies this
      ensures state == Model.AdvanceEpoch(old(state))
    {
      hide Revalidate, Supersede;
      var rs, ps := state.registrations, state.plans;
      var active := (r: Registration) => r.state.Registered? || r.state.Registering?;
      var marked := MarkForRevalidation(rs, active);
      assert (set k | k in rs && active(rs[k])) ==
             (set k | k in rs && (rs[k].state.Registered? || rs[k].state.Registering?));
      var every := (p: Plan) => true;
      var cleared := ClearAuthority(ps, every);
      assert (set k | k in ps && every(ps[k])) == ps.Keys;
      state := state.(epoch := state.epoch + 1, workers := map[], registrations := marked, plans := cleared);
    }

    // -------------------------------------------------------------------
    // Buffers, devices, endpoints
    // -------------------------------------------------------------------

    method CreateBuffer(p: BufferParams) returns (reply: Result<Buffer>)
      modifies this
      ensures Step(state, reply) == Model.CreateBuffer(old(state), p)
    {
      hide LeavesGrants, LeavesWorkers, Live;
      if p.size > 0 && p.alignment == 0 { return Err(InvalidArgument); }
      if |state.buffers| >= state.limits.buffers { return Err(ResourceLimit); }
      var live := WorkerLive(p.authority);
      if p.authority.WorkerOwned() && !live { return Err(StaleBoot); }
      var id := NextId();
      var b := Buffer(id, 1, p.authority, p.domain, p.size, p.alignment, p.device, 0, p.locality, Unregistered, 0, 0,
                      Active, p.support, p.provenance, 0, p.name);
      b := StoreBuffer(id, b);
      reply := Ok(b);
    }

    /** Worker-owned objects answer only to their live owner. */
    method CheckOwner(owner: Authority, caller: Authority) returns (allowed: bool)
      ensures allowed == OwnerAllows(state, owner, caller)
    {
      hide Live;
      if !owner.WorkerOwned() { return true; }
      var live := WorkerLive(owner);
      allowed := caller == owner && live;
    }

    method StoreBuffer(id: nat, b: Buffer) returns (stored: Buffer)
      modifies this
      ensures
        var s := old(state);
        && stored == b.(freshness := s.freshness + 1)
        && state == s.(freshness := s.freshness + 1, buffers := s.buffers[id := stored])
    {
      var now := NextFreshness();
      stored := b.(freshness := now);
      state := state.(buffers := state.buffers[id := stored]);
    }

    method StoreEndpoint(id: nat, e: Endpoint) returns (stored: Endpoint)
      modifies this
      ensures
        var s := old(state);
        && stored == e.(freshness := s.freshness + 1)
        && state == s.(freshness := s.freshness + 1, endpoints := s.endpoints[id := stored])
    {
      var now := NextFreshness();
      stored := e.(freshness := now);
      state := state.(endpoints := state.endpoints[id := stored]);
    }

    method AdvanceBufferGeneration(id: nat, caller: Authority) returns (reply: Result<Buffer>)
      modifies this
      ensures Step(state, reply) == Model.AdvanceBufferGeneration(old(state), id, caller)
    {
      hide InvalidateBuffer, OwnerAllows;
      if id !in state.buffers { return Err(NotFound); }
      var b := state.buffers[id];
      var allowed := CheckOwner(b.authority, caller);
      if !allowed { return Err(StaleBoot); }
      b := StoreBuffer(id, b.(generation := b.generation + 1));
      InvalidateBufferDependents(id);
      reply := Ok(b);
    }

    method RetireBuffer(id: nat, caller: Authority) returns (reply: Result<()>)
      modifies this
      ensures Step(state, reply) == Model.RetireBuffer(old(state), id, caller)
    {
      hide InvalidateBuffer, OwnerAllows;
      if id !in state.buffers { return Err(NotFound); }
      var b := state.buffers[id];
      var allowed := CheckOwner(b.authority, caller);
      if !allowed { return Err(StaleBoot); }
      b := StoreBuffer(id, b.(lifecycle := RetiredBuffer));
      InvalidateBufferDependents(id);
      reply := Ok(());
    }

    method AddDevice(p: DeviceParams) returns (reply: Result<Device>)
      modifies this
      ensures Step(state, reply) == Model.AddDevice(old(state), p)
    {
      hide LeavesGrants, LeavesWorkers, Live;
      var live := WorkerLive(p.authority);
      if p.authority.WorkerOwned() && !live { return Err(StaleBoot); }
      var id := NextId();
      var now := NextFreshness();
      var d := Device(id, 1, p.name, p.computeCapability, p.peerMemorySupported, p.support, p.provenance, p.authority,
                      now);
      state := state.(devices := state.devices[id := d]);
      reply := Ok(d);
    }

    method AddEndpoint(p: EndpointParams) returns (reply: Result<Endpoint>)
      modifies this
      ensures Step(state, reply) == Model.AddEndpoint(old(state), p)
    {
      hide LeavesGrants, LeavesWorkers, Live;
      if |state.endpoints| >= state.limits.endpoints { return Err(ResourceLimit); }
      var live := WorkerLive(p.authority);
      if p.authority.WorkerOwned() && !live { return Err(StaleBoot); }
      var e := FileEndpoint(p);
      reply := Ok(e);
    }

    method FileEndpoint(p: EndpointParams) returns (e: Endpoint)
      modifies this
      ensures
        var s := old(state);
        && e == Endpoint(s.nextId + 1, 1, p.endpointClass, p.name, p.topologyHint, p.healthy, p.provider, p.support,
                         p.provenance, p.authority, s.freshness + 1)
        && state == s.(nextId := s.nextId + 1, freshness := s.freshness + 1,
                       endpoints := s.endpoints[s.nextId + 1 := e])
    {
      var id := NextId();
      e := Endpoint(id, 1, p.endpointClass, p.name, p.topologyHint, p.healthy, p.provider, p.support, p.provenance,
                    p.authority, 0);
      e := StoreEndpoint(id, e);
    }

    method AdvanceEndpointGeneration(id: nat, caller: Authority) returns (reply: Result<Endpoint>)
      modifies this
      ensures Step(state, reply) == Model.AdvanceEndpointGeneration(old(state), id, caller)
    {
      hide InvalidateEndpoint, OwnerAllows;
      if id !in state.endpoints { return Err(NotFound); }
      var e := state.endpoints[id];
      var allowed := CheckOwner(e.authority, caller);
      if !allowed { return Err(StaleBoot); }
      e := StoreEndpoint(id, e.(generation := e.generation + 1));
      InvalidateEndpointDependents(id);
      reply := Ok(e);
    }

    method SetEndpointHealth(id: nat, healthy: bool, caller: Authority) returns (reply: Result<()>)
      modifies this
      ensures Step(state, reply) == Model.SetEndpointHealth(old(state), id, healthy, caller)
    {
      hide LeavesGrants, LeavesWorkers, OwnerAllows;
      if id !in state.endpoints { return Err(NotFound); }
      var e := state.endpoints[id];
      var allowed := CheckOwner(e.authority, caller);
      if !allowed { return Err(StaleBoot); }
      e := StoreEndpoint(id, e.(healthy := healthy));
      reply := Ok(());
    }

    method AddNic(n: Nic)
      modifies this
      ensures state == Model.AddNic(old(state), n)
    {
      hide LeavesGrants, LeavesWorkers;
      var id := n.id;
      if id == 0 { id := NextId(); }
      var now := NextFreshness();
      var nic := n.(id := id, generation := if n.generation == 0 then 1 else n.generation, freshness := now);
      state := state.(nics := state.nics[id := nic]);
    }

    method AddStorage(e: StorageEndpoint)
      modifies this
      ensures state == Model.AddStorage(old(state), e)
    {
      hide LeavesGrants, LeavesWorkers;
      var id := e.id;
      if id == 0 { id := NextId(); }
      var now := NextFreshness();
      var st := e.(id := id, generation := if e.generation == 0 then 1 else e.generation, freshness := now);
      state := state.(storage := state.storage[id := st]);
    }

    // -------------------------------------------------------------------
    // Providers and capabilities
    // -------------------------------------------------------------------

    method AddProvider(p: ProviderParams) returns (reply: Result<Provider>, ghost slot: Option<nat>)
      modifies this
      ensures IsNamed(old(state).providers, p.name, slot)
      ensures Step(state, reply) == Model.AddProvider(old(state), p, slot)
    {
      hide LeavesGrants, LeavesWorkers, IsNamed;
      var found := FindNamed(state.providers, p.name);
      slot := found;
      if p.name == [] { return Err(InvalidArgument), slot; }
      if found.Some? {
        NamedIsFiled(state.providers, p.name, found);
        var v := state.providers[found.value].(available := p.available, support := p.support,
                                               provenance := p.provenance);
        state := state.(providers := state.providers[found.value := v]);
        return Ok(v), slot;
      }
      var id := NextId();
      var v := Provider(id, p.name, p.available, p.support, p.provenance);
      state := state.(providers := state.providers[id := v]);
      reply := Ok(v);
    }

    method PublishCapability(p: CapabilityParams) returns (reply: Result<Capability>, ghost slot: Option<nat>)
      modifies this
      ensures IsObservation(old(state).capabilities, p.provider, p.capability, slot)
      ensures Step(state, reply) == Model.PublishCapability(old(state), p, slot)
    {
      hide LeavesGrants, LeavesWorkers, IsObservation, Live;
      var found := FindObservation(state.capabilities, p.provider, p.capability);
      slot := found;
      var live := WorkerLive(p.authority);
      if p.authority.WorkerOwned() && !live { return Err(StaleBoot), slot; }
      var id := NextId();
      var now := NextFreshness();
      var c := Capability(id, p.provider, p.capability, p.value, p.support, p.provenance, p.authority, now);
      if found.Some? {
        state := state.(capabilities := state.capabilities[found.value := c]);
        return Ok(c), slot;
      }
      state := state.(capabilities := state.capabilities[id := c]);
      reply := Ok(c);
    }

    method RevokeCapability(provider: Text, capability: Text, caller: Authority)
      returns (reply: Result<()>, ghost slot: Option<nat>)
      modifies this
      ensures IsObservation(old(state).capabilities, provider, capability, slot)
      ensures Step(state, reply) == Model.RevokeCapability(old(state), provider, capability, caller, slot)
    {
      hide LeavesGrants, LeavesWorkers, Live;
      var found := FindObservation(state.capabilities, provider, capability);
      slot := found;
      if found.None? { return Ok(()), slot; }
      var c := state.capabilities[found.value];
      var live := WorkerLive(c.authority);
      if c.authority.WorkerOwned() && (caller != c.authority || !live) { return Err(StaleBoot), slot; }
      state := state.(capabilities := state.capabilities - {found.value});
      reply := Ok(());
    }

    // -------------------------------------------------------------------
    // Registration
    // -------------------------------------------------------------------

    /** The checks before the pair's history is looked at. */
    method CheckRegistration(p: RegisterParams) returns (rejection: Option<ErrorCode>)
      ensures rejection == RegisterRejection(state, p)
    {
      hide Live;
      if p.buffer !in state.buffers { return Some(InvalidBufferError); }
      var b := state.buffers[p.buffer];
      if !b.lifecycle.Active? { return Some(InvalidBufferError); }
      if p.endpoint !in state.endpoints { return Some(NotFound); }
      if state.endpoints[p.endpoint].support.Unsupported? { return Some(RegistrationFailedError); }
      if |state.registrations| >= state.limits.registrations { return Some(ResourceLimit); }
      if p.authority.epoch != state.epoch { return Some(StaleEpoch); }
      if p.authority.WorkerOwned() {
        var live := WorkerLive(p.authority);
        if !live { return Some(StaleBoot); }
      }
      if b.authority.WorkerOwned() && b.authority != p.authority { return Some(RegistrationFailedError); }
      rejection := None;
    }

    method RegisterBuffer(p: RegisterParams, grant: BackendGrant)
      returns (reply: Result<Registration>, ghost latest: Option<nat>)
      modifies this
      ensures IsLatest(old(state).registrations, p.buffer, p.endpoint, latest)
      ensures Step(state, reply) == Model.RegisterBuffer(old(state), p, grant, latest)
    {
      hide IsLatest, NewRegistration, RegisterRejection;
      latest := LatestExists(state.registrations, p.buffer, p.endpoint);
      var rejection := CheckRegistration(p);
      if rejection.Some? { return Err(rejection.value), latest; }
      var b, e := state.buffers[p.buffer], state.endpoints[p.endpoint];
      var found := FindLatest(state.registrations, p.buffer, p.endpoint, false);
      latest := found;
      var generation := 1;
      if found.Some? {
        LatestIsFiled(state.registrations, p.buffer, p.endpoint, found);
        var r := state.registrations[found.value];
        generation := r.generation + 1;
        if r.state.Registered? && r.bufferGeneration == b.generation && r.endpointGeneration == e.generation &&
           r.authority == p.authority && r.provider == p.provider {
          return Ok(r.(duplicated := true)), latest;
        }
        if r.state.Registered? { return Err(RegistrationFailedError), latest; }
        if r.state.Registering? { return Err(RegistrationFailedError), latest; }
        if r.state.Deregistering? {
          var retired := RetireById(state.registrations, r.id);
          state := state.(registrations := retired);
        }
      }
      if grant.Refused? { return Err(RegistrationFailedError), latest; }
      reply := Record(p, grant, generation);
    }

    method Record(p: RegisterParams, grant: BackendGrant, generation: nat) returns (reply: Result<Registration>)
      requires p.buffer in state.buffers && p.endpoint in state.endpoints
      modifies this
      ensures Step(state, reply) == NewRegistration(old(state), p, grant, generation)
    {
      var id := TakeRegistrationId(grant);
      var b, e := state.buffers[p.buffer], state.endpoints[p.endpoint];
      var now := NextFreshness();
      var r := Registration(
        id, generation, b.id, b.generation, e.id, e.generation, p.provider, p.authority, Registered,
        if grant.Granted? then grant.support else p.support, if grant.Granted? then grant.provenance else p.provenance,
        false, now, p.requiredCapabilities, if grant.Granted? then grant.handle else None);
      state := state.(registrations := state.registrations[id := r]);
      b := StoreBuffer(p.buffer, b.(registrationState := Registered, registrationId := r.id,
                                    registrationGeneration := r.generation));
      reply := Ok(r);
    }

    /** The backend's id, or a new one when there is no backend or it gives none. */
    method TakeRegistrationId(grant: BackendGrant) returns (id: nat)
      modifies this
      ensures id == RegistrationId(old(state), grant)
      ensures state == old(state).(nextId := if grant.Granted? && grant.id != 0 then old(state).nextId else id)
    {
      id := if grant.Granted? then grant.id else 0;
      if id == 0 { id := NextId(); }
    }

    method DeregisterBuffer(id: nat, caller: Authority) returns (reply: Result<()>, ghost latest: Option<nat>)
      modifies this
      ensures id in old(state).registrations ==>
                IsLatest(old(state).registrations, old(state).registrations[id].buffer,
                         old(state).registrations[id].endpoint, latest)
      ensures Step(state, reply) == Model.DeregisterBuffer(old(state), id, caller, latest)
    {
      hide IsLatest, Live, Model.Release;
      latest := None;
      if id !in state.registrations { return Err(NotFound), latest; }
      var r := state.registrations[id];
      latest := LatestExists(state.registrations, r.buffer, r.endpoint);
      if r.state.Retired? || r.state.Unregistered? { return Ok(()), latest; }
      var live := WorkerLive(r.authority);
      if r.authority.WorkerOwned() && !live {
        state := state.(registrations := state.registrations[id := r.(state := Retired)]);
        return Ok(()), latest;
      }
      if r.authority.WorkerOwned() && caller != r.authority { return Err(StaleBoot), latest; }
      var found := FindLatest(state.registrations, r.buffer, r.endpoint, false);
      latest := found;
      LatestIsFiled(state.registrations, r.buffer, r.endpoint, found);
      if found.Some? && state.registrations[found.value].id != r.id { return Err(StaleGeneration), latest; }
      Release(id);
      reply := Ok(());
    }

    method Release(id: nat)
      requires id in state.registrations
      modifies this
      ensures state == Model.Release(old(state), id)
    {
      var r := state.registrations[id];
      var now := NextFreshness();
      state := state.(registrations := state.registrations[id := r.(state := Retired, handle := None,
                                                                    freshness := now)]);
      if r.buffer in state.buffers {
        var b := state.buffers[r.buffer];
        if b.registrationId == r.id {
          b := StoreBuffer(r.buffer, b.(registrationState := Unregistered, registrationId := 0,
                                        registrationGeneration := 0));
        }
      }
    }

    // -------------------------------------------------------------------
    // Planning: a snapshot and its evaluation, then the commit
    // -------------------------------------------------------------------

    method BuildEvidence(req: Request) returns (ev: Evidence)
      ensures IsEvidence(state, req, ev)
    {
      hide Lists;
      var source, destination, device := NIL_BUFFER, NIL_ENDPOINT, NIL_DEVICE;
      if req.source in state.buffers { source := state.buffers[req.source]; }
      if req.destination in state.endpoints { destination := state.endpoints[req.destination]; }
      if source.device != 0 && source.device in state.devices { device := state.devices[source.device]; }
      var registrations := Values(state.registrations);
      var capabilities := Values(state.capabilities);
      var devices := Values(state.devices);
      var endpoints := Values(state.endpoints);
      var providers := Values(state.providers);
      var live := Values(Incarnations(state.workers));
      ev := Evidence(source, destination, device, registrations, capabilities, devices, endpoints, providers, live,
                     state.epoch);
    }

    /** The decision is made on some snapshot of the state; of a sound state, any snapshot gives it. */
    method EvaluatePath(req: Request) returns (d: Decision, ghost ev: Evidence)
      ensures IsEvidence(state, req, ev) && d == Decide(req, ev)
      ensures Inv(state) ==> forall other :: IsEvidence(state, req, other) ==> d == Decide(req, other)
    {
      hide Inv, IsEvidence, Decide;
      var snapshot := BuildEvidence(req);
      ev := snapshot;
      d := Evaluate(req, snapshot);
      if Inv(state) {
        forall other | IsEvidence(state, req, other) ensures d == Decide(req, other) {
          Agreement.SnapshotsAgree(state, req, snapshot, other);
        }
      }
    }

    method CommitPlan(req: Request, d: Decision, explanation: Text)
      returns (reply: Result<Plan>, ghost chosen: Option<nat>)
      modifies this
      ensures req.source in old(state).buffers && req.destination in old(state).endpoints ==>
                IsLatest(RegisteredOnly(old(state).registrations), old(state).buffers[req.source].id,
                         old(state).endpoints[req.destination].id, chosen)
      ensures Step(state, reply) == Model.CommitPlan(old(state), req, d, chosen, explanation)
    {
      hide IsLatest, RegisteredOnly, PlanFor, FilePlan;
      chosen := None;
      if req.source in state.buffers && req.destination in state.endpoints {
        chosen := LatestExists(RegisteredOnly(state.registrations), state.buffers[req.source].id,
                               state.endpoints[req.destination].id);
      }
      if !Plannable(d) { return Err(ErrorFor(d.eligibility)), chosen; }
      if |state.plans| >= state.limits.plans { return Err(ResourceLimit), chosen; }
      if req.source !in state.buffers { return Err(StaleBuffer), chosen; }
      var src := state.buffers[req.source];
      if src.generation != d.sourceGeneration { return Err(StaleGeneration), chosen; }
      if req.destination !in state.endpoints { return Err(StaleEndpoint), chosen; }
      var dst := state.endpoints[req.destination];
      if dst.generation != d.destinationGeneration { return Err(StaleEndpoint), chosen; }
      var found := FindLatest(state.registrations, src.id, dst.id, true);
      chosen := found;
      if IsDirect(d.eligibility) && found.None? { return Err(RegistrationStaleError), chosen; }
      var reg := None;
      if found.Some? {
        LatestIsFiled(RegisteredOnly(state.registrations), src.id, dst.id, found);
        RegisteredOnlyIsPart(state.registrations);
        reg := Some(state.registrations[found.value]);
      }
      var plan := RecordPlan(req, d, reg, explanation);
      reply := Ok(plan);
    }

    method RecordPlan(req: Request, d: Decision, reg: Option<Registration>, explanation: Text) returns (plan: Plan)
      requires req.source in state.buffers && req.destination in state.endpoints
      modifies this
      ensures plan == PlanFor(old(state), req, d, reg, explanation)
      ensures
        var s := old(state);
        state == FilePlan(s, req, plan)
    {
      hide FilePlan, Stages, Staging;
      ghost var s := state;
      plan := DraftPlan(req, d, reg, explanation);
      var stages, copies := LayStages(req, d, plan.source, plan.destination, plan.authority);
      plan := plan.(stages := stages, copyCount := copies);
      state := state.(plans := state.plans[plan.id := plan]);
      PlanIsFiled(s, req, plan);
    }

    /** One direct stage, or two through a new staging buffer. */
    method LayStages(req: Request, d: Decision, src: nat, dst: nat, owner: Authority)
      returns (stages: seq<TransferStage>, copies: nat)
      modifies this
      ensures copies == if IsDirect(d.eligibility) then 1 else 2
      ensures stages == Stages(old(state).nextId + 1, src, dst, d)
      ensures
        var s := old(state);
        state == if IsDirect(d.eligibility) then s else s.(nextId := s.nextId + 1, freshness := s.freshness + 1,
          buffers := s.buffers[s.nextId + 1 := Staging(s.nextId + 1, owner, req.size, s.freshness + 1)])
    {
      if IsDirect(d.eligibility) {
        stages, copies := [TransferStage(d.directClass, d.support, d.provenance, src, 0, dst, true)], 1;
      } else {
        var tmp := AllocateStaging(req, owner);
        var c := if d.selectedFallback.Some? then d.selectedFallback.value.pathClass else GpuToHostPinned;
        stages := [TransferStage(c, Synthetic, SyntheticFixture, src, tmp, 0, false),
                   TransferStage(c, Synthetic, SyntheticFixture, tmp, 0, dst, false)];
        copies := 2;
      }
    }

    /** The plan before its stages are laid out. */
    method DraftPlan(req: Request, d: Decision, reg: Option<Registration>, explanation: Text) returns (plan: Plan)
      requires req.source in state.buffers && req.destination in state.endpoints
      modifies this
      ensures plan == PlanFor(old(state), req, d, reg, explanation).(stages := [], copyCount := 0)
      ensures state == old(state).(nextId := old(state).nextId + 2)
    {
      var src, dst := state.buffers[req.source], state.endpoints[req.destination];
      var id := NextId();
      var pathGeneration := NextId();
      plan := Plan(id, pathGeneration, 1, src.id, src.generation, dst.id, dst.generation, 0, 0, 0, req.policy, req.size,
                   d.eligibility, d.support, d.provenance, 0, [], explanation, state.epoch, src.authority, true);
      if reg.Some? {
        plan := plan.(registrationId := reg.value.id, registrationGeneration := reg.value.generation,
                      registrationBufferGeneration := reg.value.bufferGeneration);
      }
    }

    method AllocateStaging(req: Request, owner: Authority) returns (tmp: nat)
      modifies this
      ensures
        var s := old(state);
        && tmp == s.nextId + 1
        && state == s.(nextId := tmp, freshness := s.freshness + 1,
                       buffers := s.buffers[tmp := Staging(tmp, owner, req.size, s.freshness + 1)])
    {
      tmp := NextId();
      var now := NextFreshness();
      var staging := Buffer(tmp, 1, owner, HostPinned, req.size, 64, 0, 0, Local, Unregistered, 0, 0, Active,
                            Synthetic, SyntheticFixture, now, STAGING_NAME);
      state := state.(buffers := state.buffers[tmp := staging]);
    }

    // -------------------------------------------------------------------
    // Transfers
    // -------------------------------------------------------------------

    method CheckBegin(plan: Plan, caller: Authority) returns (rejection: Option<ErrorCode>)
      ensures rejection == BeginRejection(state, plan, caller)
    {
      hide Live;
      if !plan.authoritative { return Some(StaleGeneration); }
      if plan.epoch != state.epoch { return Some(StaleEpoch); }
      if caller.WorkerOwned() {
        var live := WorkerLive(caller);
        if !live { return Some(StaleBoot); }
        if plan.authority.WorkerOwned() && caller != plan.authority { return Some(StaleBoot); }
      }
      if |state.attempts| >= state.limits.attempts { return Some(ResourceLimit); }
      if plan.source !in state.buffers || state.buffers[plan.source].generation != plan.sourceGeneration {
        return Some(StaleGeneration);
      }
      if plan.destination !in state.endpoints ||
         state.endpoints[plan.destination].generation != plan.destinationGeneration {
        return Some(StaleEndpoint);
      }
      if plan.registrationId != 0 {
        if plan.registrationId !in state.registrations { return Some(RegistrationStaleError); }
        var r := state.registrations[plan.registrationId];
        if r.generation != plan.registrationGeneration || !r.state.Registered? { return Some(RegistrationStaleError); }
      }
      rejection := None;
    }

    method BeginTransfer(planId: nat, caller: Authority, run: BackendRun) returns (reply: Result<Attempt>)
      modifies this
      ensures Step(state, reply) == Model.BeginTransfer(old(state), planId, caller, run)
    {
      hide LeavesGrants, LeavesWorkers, BeginRejection;
      if planId !in state.plans { return Err(NotFound); }
      var plan := state.plans[planId];
      var rejection := CheckBegin(plan, caller);
      if rejection.Some? { return Err(rejection.value); }
      var id := NextId();
      var a := Attempt(id, plan.id, plan.generation, InFlight, 0, state.epoch, caller, false, plan.expectedBytes,
                       false, false, [], plan.support, plan.provenance);
      match run {
        case NoRun =>
        case RunError => a := a.(state := TransferFailed);
        case Outcome(outcome, bytes, checked, passed, means, support, provenance) =>
          a := a.(bytes := bytes, integrityChecked := checked, integrityPassed := passed, means := means,
                  support := support, provenance := provenance);
          if outcome.TransferFailed? { a := a.(state := TransferFailed); }
      }
      state := state.(attempts := state.attempts[id := a]);
      reply := Ok(a);
    }

    method CompleteTransfer(id: nat, caller: Authority) returns (reply: Result<Receipt>)
      modifies this
      ensures Step(state, reply) == Model.CompleteTransfer(old(state), id, caller)
    {
      hide LeavesGrants, LeavesWorkers, Live, Model.Conclude;
      if id !in state.attempts { return Err(NotFound); }
      var a := state.attempts[id];
      if a.completionCommitted && id in state.receipts { return Ok(state.receipts[id]); }
      if a.state.Cancelled? { return Err(CancelledError); }
      if a.state.TransferFailed? {
        if id in state.receipts { return Ok(state.receipts[id]); }
        var r := ReceiptFor(a, TransferFailed, false);
        state := state.(receipts := state.receipts[id := r]);
        return Ok(r);
      }
      var live := WorkerLive(caller);
      if caller.WorkerOwned() && (!live || caller != a.authority) { return Err(StaleBoot); }
      if a.planId !in state.plans || !state.plans[a.planId].authoritative { return Err(StaleGeneration); }
      reply := Conclude(id, a);
    }

    /** The integrity gate, then the byte count. */
    method Conclude(id: nat, a: Attempt) returns (reply: Result<Receipt>)
      modifies this
      ensures Step(state, reply) == Model.Conclude(old(state), id, a)
    {
      hide LeavesGrants, LeavesWorkers;
      if a.integrityChecked && !a.integrityPassed {
        var failed := a.(state := TransferFailed, completionCommitted := true);
        File(id, failed, ReceiptFor(failed, TransferFailed, false));
        Verify(failed, false);
        return Err(IntegrityFailure);
      }
      var completed := a.submittedBytes == 0 || a.bytes == a.submittedBytes;
      var done := a.(state := if completed then Completed else TransferFailed, completionCommitted := true);
      var receipt := ReceiptFor(done, done.state, done.integrityChecked);
      File(id, done, receipt);
      if done.state.Completed? && done.integrityChecked && done.integrityPassed { Verify(done, true); }
      reply := Ok(receipt);
    }

    method File(id: nat, a: Attempt, receipt: Receipt)
      modifies this
      ensures state == Settle(old(state), id, a, receipt)
    {
      hide LeavesGrants, LeavesWorkers;
      state := state.(attempts := state.attempts[id := a]);
      state := state.(receipts := state.receipts[id := receipt]);
    }

    method Verify(a: Attempt, passed: bool)
      modifies this
      ensures state == RecordVerification(old(state), a, passed)
    {
      hide LeavesGrants, LeavesWorkers;
      var v := NextId();
      state := state.(verifications := state.verifications[v := Verification(v, a.id, passed, a.bytes, a.support,
                                                                             a.means)]);
    }

    method CancelTransfer(id: nat, caller: Authority) returns (reply: Result<Receipt>)
      modifies this
      ensures Step(state, reply) == Model.CancelTransfer(old(state), id, caller)
    {
      hide LeavesGrants, LeavesWorkers, Live;
      if id !in state.attempts { return Err(NotFound); }
      var a := state.attempts[id];
      if a.completionCommitted || a.state.Completed? || a.state.Verified? { return Err(CancelledError); }
      var live := WorkerLive(caller);
      if caller.WorkerOwned() && (!live || caller != a.authority) { return Err(StaleBoot); }
      a := a.(state := Cancelled, completionCommitted := false);
      var receipt := ReceiptFor(a, Cancelled, false);
      File(id, a, receipt);
      reply := Ok(receipt);
    }

    method VerifyTransfer(id: nat, passed: bool, bytesChecked: nat) returns (reply: Result<Verification>)
      modifies this
      ensures Step(state, reply) == Model.VerifyTransfer(old(state), id, passed, bytesChecked)
    {
      hide LeavesGrants, LeavesWorkers;
      if id !in state.attempts { return Err(NotFound); }
      var a := state.attempts[id];
      var n := NextId();
      var v := Verification(n, a.id, passed, bytesChecked, a.support, if a.means == [] then EXPLICIT else a.means);
      state := state.(verifications := state.verifications[n := v]);
      reply := Ok(v);
    }
  }
}
