/** Where authority comes from: only registration makes a registration REGISTERED, only planning makes
    a plan authoritative. These laws hold from any state, reachable or not. */
module Grants {
  import opened Types
  import opened PathPlanner
  import opened CoordinatorModel
  import opened Protocol

  /** Registrations stay, keep everything but their standing, and never become REGISTERED again. */
  ghost predicate RegistrationsAge(rs: map<nat, Registration>, rs': map<nat, Registration>) {
    forall k :: k in rs ==>
      && k in rs'
      && rs'[k] == rs[k].(state := rs'[k].state, handle := rs'[k].handle, freshness := rs'[k].freshness)
      && (rs'[k].state.Registered? ==> rs'[k] == rs[k])
  }

  /** Every REGISTERED registration except possibly k was there before, unchanged. */
  ghost predicate GrantsOnly(rs: map<nat, Registration>, rs': map<nat, Registration>, granted: set<nat>) {
    forall k :: k in rs' && rs'[k].state.Registered? && k !in granted ==> k in rs && rs[k] == rs'[k]
  }

  ghost predicate AuthorizesOnly(ps: map<nat, Plan>, ps': map<nat, Plan>, authorized: set<nat>) {
    forall k :: k in ps' && ps'[k].authoritative && k !in authorized ==> k in ps && ps[k] == ps'[k]
  }

  ghost predicate NothingGranted(s: State, s': State) {
    && RegistrationsAge(s.registrations, s'.registrations)
    && GrantsOnly(s.registrations, s'.registrations, {}) && AuthorizesOnly(s.plans, s'.plans, {})
  }

  lemma Untouched(s: State, s': State)
    requires s'.registrations == s.registrations && s'.plans == s.plans
    ensures NothingGranted(s, s')
  {
  }

  lemma MarkedAndSuperseded(s: State, s': State, regs: set<nat>, plans: set<nat>)
    requires s'.registrations == Revalidate(s.registrations, regs) && s'.plans == Supersede(s.plans, plans)
    ensures NothingGranted(s, s')
  {
  }

  lemma Marked(s: State, s': State, regs: set<nat>)
    requires s'.registrations == Revalidate(s.registrations, regs) && s'.plans == s.plans
    ensures NothingGranted(s, s')
  {
  }

  predicate MayGrant(a: Action) { a.DoRegisterBuffer? || a.DoCommitPlan? }
  predicate Fences(a: Action) {
    a.DoMarkWorkerDead? || a.DoAdvanceEpoch? || a.DoAdvanceBuffer? || a.DoRetireBuffer? || a.DoAdvanceEndpoint? ||
    a.DoDeregisterBuffer?
  }

  lemma OthersTouchNothing(sys: System, a: Action)
    requires Enabled(sys, a) && !MayGrant(a) && !Fences(a)
    ensures NextState(sys, a).registrations == sys.st.registrations && NextState(sys, a).plans == sys.st.plans
  {
    hide IsLatest, IsEvidence, IsNamed, IsObservation, RegisteredOnly;
    hide RegisterWorker, MarkWorkerDead, AdvanceEpoch, CreateBuffer, AdvanceBufferGeneration, RetireBuffer, AddDevice;
    hide AddEndpoint, AdvanceEndpointGeneration, SetEndpointHealth, AddNic, AddStorage, AddProvider, PublishCapability;
    hide RevokeCapability, RegisterBuffer, DeregisterBuffer, CommitPlan, BeginTransfer, CompleteTransfer;
    hide CancelTransfer;
    hide VerifyTransfer;
  }

  lemma BufferEventGrantsNothing(s: State, s1: State, b: nat)
    requires s1.registrations == s.registrations && s1.plans == s.plans
    ensures NothingGranted(s, InvalidateBuffer(s1, b))
  {
    MarkedAndSuperseded(s, InvalidateBuffer(s1, b), (set k | k in s1.registrations && s1.registrations[k].buffer == b),
                        set k | k in s1.plans && s1.plans[k].source == b);
  }

  lemma EndpointEventGrantsNothing(s: State, s1: State, e: nat)
    requires s1.registrations == s.registrations && s1.plans == s.plans
    ensures NothingGranted(s, InvalidateEndpoint(s1, e))
  {
    MarkedAndSuperseded(s, InvalidateEndpoint(s1, e),
                        (set k | k in s1.registrations && s1.registrations[k].endpoint == e),
                        set k | k in s1.plans && s1.plans[k].destination == e);
  }

  lemma BufferEventsGrantNothing(s: State, b: nat, caller: Authority)
    ensures NothingGranted(s, AdvanceBufferGeneration(s, b, caller).state)
    ensures NothingGranted(s, RetireBuffer(s, b, caller).state)
  {
    hide NothingGranted, OwnerAllows, InvalidateBuffer;
    Untouched(s, s);
    if b in s.buffers {
      var now, was := s.freshness + 1, s.buffers[b];
      BufferEventGrantsNothing(
        s, s.(freshness := now, buffers := s.buffers[b := was.(generation := was.generation + 1,
                                                               freshness := now)]), b);
      BufferEventGrantsNothing(
        s, s.(freshness := now, buffers := s.buffers[b := was.(lifecycle := RetiredBuffer, freshness := now)]), b);
    }
  }

  lemma EndpointEventsGrantNothing(s: State, e: nat, caller: Authority)
    ensures NothingGranted(s, AdvanceEndpointGeneration(s, e, caller).state)
  {
    hide NothingGranted, OwnerAllows, InvalidateEndpoint;
    Untouched(s, s);
    if e in s.endpoints {
      var now, was := s.freshness + 1, s.endpoints[e];
      EndpointEventGrantsNothing(
        s, s.(freshness := now, endpoints := s.endpoints[e := was.(generation := was.generation + 1,
                                                                   freshness := now)]), e);
    }
  }

  lemma DeathGrantsNothing(s: State, w: nat)
    ensures NothingGranted(s, MarkWorkerDead(s, w)) && NothingGranted(s, AdvanceEpoch(s))
  {
    hide NothingGranted, Revalidate, Supersede;
    Marked(s, MarkWorkerDead(s, w), set k | k in s.registrations && s.registrations[k].authority.worker == w && w != 0);
    MarkedAndSuperseded(s, AdvanceEpoch(s),
      (set k | k in s.registrations && (s.registrations[k].state.Registered? || s.registrations[k].state.Registering?)),
      s.plans.Keys);
  }

  lemma Deregistered(s: State, s': State, k: nat, r: Registration)
    requires k in s.registrations && s'.registrations == s.registrations[k := r] && s'.plans == s.plans
    requires r == s.registrations[k].(state := Retired, handle := r.handle, freshness := r.freshness)
    ensures NothingGranted(s, s')
  {
  }

  lemma DeregistrationGrantsNothing(s: State, id: nat, caller: Authority, latest: Option<nat>)
    requires id in s.registrations ==>
               IsLatest(s.registrations, s.registrations[id].buffer, s.registrations[id].endpoint, latest)
    ensures NothingGranted(s, DeregisterBuffer(s, id, caller, latest).state)
  {
    hide NothingGranted, IsLatest, Live, Release;
    Untouched(s, s);
    if id in s.registrations {
      var r := s.registrations[id].(state := Retired);
      Deregistered(s, s.(registrations := s.registrations[id := r]), id, r);
      ReleaseGrantsNothing(s, id);
    }
  }

  lemma ReleaseGrantsNothing(s: State, id: nat)
    requires id in s.registrations
    ensures NothingGranted(s, Release(s, id))
  {
    hide NothingGranted, Unnoted;
    var r := s.registrations[id].(state := Retired, handle := None, freshness := s.freshness + 1);
    Deregistered(s, Release(s, id), id, r);
  }

  /** No step but registration and planning grants anything. */
  lemma OthersGrantNothing(sys: System, a: Action)
    requires Enabled(sys, a) && !MayGrant(a)
    ensures NothingGranted(sys.st, NextState(sys, a))
  {
    hide IsLatest, IsEvidence, IsNamed, IsObservation, RegisteredOnly, NothingGranted;
    hide RegisterWorker, MarkWorkerDead, AdvanceEpoch, CreateBuffer, AdvanceBufferGeneration, RetireBuffer, AddDevice;
    hide AddEndpoint, AdvanceEndpointGeneration, SetEndpointHealth, AddNic, AddStorage, AddProvider, PublishCapability;
    hide RevokeCapability, RegisterBuffer, DeregisterBuffer, CommitPlan, BeginTransfer, CompleteTransfer;
    hide CancelTransfer;
    hide VerifyTransfer;
    var s := sys.st;
    if Fences(a) {
      match a
      case DoMarkWorkerDead(w) => DeathGrantsNothing(s, w);
      case DoAdvanceEpoch => DeathGrantsNothing(s, 0);
      case DoAdvanceBuffer(id, caller) => BufferEventsGrantNothing(s, id, caller);
      case DoRetireBuffer(id, caller) => BufferEventsGrantNothing(s, id, caller);
      case DoAdvanceEndpoint(id, caller) => EndpointEventsGrantNothing(s, id, caller);
      case DoDeregisterBuffer(id, caller, latest) => DeregistrationGrantsNothing(s, id, caller, latest);
      case _ =>
    } else {
      OthersTouchNothing(sys, a);
      Untouched(s, NextState(sys, a));
    }
  }

  // ---------------------------------------------------------------------
  // Registration
  // ---------------------------------------------------------------------

  /** The request will be granted: nothing objects to it, the pair has no active registration, and the
      backend does not refuse. */
  ghost predicate Grantable(s: State, p: RegisterParams, grant: BackendGrant, latest: Option<nat>) {
    && RegisterRejection(s, p).None? && !grant.Refused?
    && (latest.Some? && latest.value in s.registrations ==>
          !s.registrations[latest.value].state.Registered? && !s.registrations[latest.value].state.Registering?)
  }

  lemma RetiringGrantsNothing(rs: map<nat, Registration>, id: nat)
    ensures RegistrationsAge(rs, Retire(rs, id)) && GrantsOnly(rs, Retire(rs, id), {})
  {
  }

  lemma RecordingGrants(rs: map<nat, Registration>, rs1: map<nat, Registration>, id: nat, r: Registration)
    requires RegistrationsAge(rs, rs1) && GrantsOnly(rs, rs1, {}) && rs1.Keys == rs.Keys
    ensures GrantsOnly(rs, rs1[id := r], {id})
    ensures id !in rs ==> RegistrationsAge(rs, rs1[id := r])
  {
  }

  /** What registration may do to the tables: record r under id, or nothing. */
  ghost predicate Recorded(s: State, step: Step<Registration>, id: nat, granted: bool) {
    && step.state.plans == s.plans
    && GrantsOnly(s.registrations, step.state.registrations, if granted then {id} else {})
    && (!(granted && id in s.registrations) ==> RegistrationsAge(s.registrations, step.state.registrations))
    && (granted ==>
          && step.reply.Ok? && id in step.state.registrations
          && step.state.registrations[id] == step.reply.value && step.reply.value.id == id)
  }

  lemma AttachGrants(s: State, rs1: map<nat, Registration>, p: RegisterParams, grant: BackendGrant, generation: nat)
    requires p.buffer in s.buffers && p.endpoint in s.endpoints
    requires RegistrationsAge(s.registrations, rs1) && GrantsOnly(s.registrations, rs1, {})
    requires rs1.Keys == s.registrations.Keys
    ensures Recorded(s, Attach(s.(registrations := rs1), p, grant, generation), RegistrationId(s, grant),
                     !grant.Refused?)
  {
    hide RegistrationsAge, GrantsOnly;
    var step := Attach(s.(registrations := rs1), p, grant, generation);
    var id := RegistrationId(s, grant);
    if !grant.Refused? {
      assert step.state == s.(registrations := rs1[id := step.reply.value], nextId := step.state.nextId,
                              freshness := step.state.freshness, buffers := step.state.buffers);
      RecordingGrants(s.registrations, rs1, id, step.reply.value);
    }
  }

  /** Registration makes at most its own record REGISTERED, under the id the backend or the counter gives. */
  lemma RegistrationGrants(s: State, p: RegisterParams, grant: BackendGrant, latest: Option<nat>)
    requires IsLatest(s.registrations, p.buffer, p.endpoint, latest)
    ensures Recorded(s, RegisterBuffer(s, p, grant, latest), RegistrationId(s, grant), Grantable(s, p, grant, latest))
  {
    hide RegisterRejection, Attach, RegistrationsAge, GrantsOnly;
    SameAges(s.registrations);
    assert s.(registrations := s.registrations) == s;
    if RegisterRejection(s, p).None? {
      if latest.None? {
        AttachGrants(s, s.registrations, p, grant, 1);
      } else {
        var r := s.registrations[latest.value];
        RetiringGrantsNothing(s.registrations, r.id);
        AttachGrants(s, Retire(s.registrations, r.id), p, grant, r.generation + 1);
        AttachGrants(s, s.registrations, p, grant, r.generation + 1);
      }
    }
  }

  lemma SameAges(rs: map<nat, Registration>)
    ensures RegistrationsAge(rs, rs) && GrantsOnly(rs, rs, {})
  {
  }

  // ---------------------------------------------------------------------
  // Planning
  // ---------------------------------------------------------------------

  lemma PlanRecorded(ps: map<nat, Plan>, k: nat, p: Plan)
    ensures AuthorizesOnly(ps, ps[k := p], {k})
  {
  }

  lemma NoPlanRecorded(ps: map<nat, Plan>)
    ensures AuthorizesOnly(ps, ps, {})
  {
  }

  lemma CommitTouchesOnlyPlans(s: State, req: Request, d: Decision, chosen: Option<nat>, explanation: Text)
    requires req.source in s.buffers && req.destination in s.endpoints ==>
               IsLatest(RegisteredOnly(s.registrations), s.buffers[req.source].id, s.endpoints[req.destination].id,
                        chosen)
    ensures
      var step := CommitPlan(s, req, d, chosen, explanation);
      step.state == (if step.reply.Err? then s
                     else s.(plans := s.plans[step.reply.value.id := step.reply.value], nextId := step.state.nextId,
                             freshness := step.state.freshness, buffers := step.state.buffers))
  {
    hide IsLatest, RegisteredOnly, FilePlan, PlanFor, Plannable;
  }

  lemma PlanningAuthorizes(s: State, req: Request, d: Decision, chosen: Option<nat>, explanation: Text)
    requires req.source in s.buffers && req.destination in s.endpoints ==>
               IsLatest(RegisteredOnly(s.registrations), s.buffers[req.source].id, s.endpoints[req.destination].id,
                        chosen)
    ensures
      var step := CommitPlan(s, req, d, chosen, explanation);
      && step.state.registrations == s.registrations
      && AuthorizesOnly(s.plans, step.state.plans, if step.reply.Ok? then {step.reply.value.id} else {})
      && (step.reply.Ok? ==>
            step.reply.value.id in step.state.plans && step.state.plans[step.reply.value.id] == step.reply.value)
  {
    hide IsLatest, RegisteredOnly, CommitPlan, AuthorizesOnly;
    var step := CommitPlan(s, req, d, chosen, explanation);
    CommitTouchesOnlyPlans(s, req, d, chosen, explanation);
    if step.reply.Ok? {
      var plan := step.reply.value;
      PlanRecorded(s.plans, plan.id, plan);
    } else {
      NoPlanRecorded(s.plans);
    }
  }

  // ---------------------------------------------------------------------
  // Steps
  // ---------------------------------------------------------------------

  /** This step records the registration. */
  ghost predicate Registers(sys: System, a: Action, r: Registration) {
    Enabled(sys, a) && a.DoRegisterBuffer? && Grantable(sys.st, a.registration, a.grant, a.latest) &&
    RegisterBuffer(sys.st, a.registration, a.grant, a.latest).reply == Ok(r)
  }

  /** This step commits the plan. */
  ghost predicate Commits(sys: System, a: Action, p: Plan) {
    Enabled(sys, a) && a.DoCommitPlan? &&
    CommitPlan(sys.st, sys.calls[a.call].request, sys.calls[a.call].decision, a.chosen, a.explanation).reply == Ok(p)
  }

  /** A registration recorded by this step does not take the id of an existing one. */
  ghost predicate TakesFreshId(sys: System, a: Action) {
    a.DoRegisterBuffer? && Grantable(sys.st, a.registration, a.grant, a.latest) ==>
      RegistrationId(sys.st, a.grant) !in sys.st.registrations
  }
}
