/** What rests on backends giving fresh registration ids, and what happens when one does not. */
module Identity {
  import opened Types
  import opened CoordinatorModel
  import opened Protocol
  import opened Invariants
  import opened Steps
  import opened TransferSteps
  import opened Grants
  import opened Runs
  import opened Lifetimes
  import opened Histories

  /** With fresh ids, a registration that leaves REGISTERED never returns to it. */
  lemma NeverRegisteredAgain(r: Run, i: nat, j: nat, k: nat)
    requires IsLife(r) && HasFreshIds(r) && i <= j < |r.states|
    requires k in r.states[i].st.registrations && !r.states[i].st.registrations[k].state.Registered?
    ensures k in r.states[j].st.registrations && !r.states[j].st.registrations[k].state.Registered?
  {
    hide IsRun, IsLife, HasFreshIds, Aging, Lawful, Powerless;
    LifeIsLawful(r);
    FreshIdsAge(r);
    RegisteredSince(StatesOf(r), i, j, k);
  }

  /** The record a granted registration leaves is newer than anything its pair has had. */
  lemma GrantIsNewest(s: State, p: RegisterParams, grant: BackendGrant, latest: Option<nat>)
    requires Inv(s) && IsLatest(s.registrations, p.buffer, p.endpoint, latest) && Grantable(s, p, grant, latest)
    ensures
      var r := RegisterBuffer(s, p, grant, latest).reply;
      r.Ok? && r.value.state.Registered? && r.value.Joins(p.buffer, p.endpoint) && Tops(s.registrations, r.value)
  {
    hide Inv, RegisterRejection;
    BufferIdIsKey(s, p.buffer);
    EndpointIdIsKey(s, p.endpoint);
    if latest.Some? { NeverDeregistering(s, latest.value); }
  }

  lemma OverwritingIsNotAging(rs: map<nat, Registration>, rs': map<nat, Registration>, r: Registration)
    requires r.id in rs && r.id in rs' && rs'[r.id] == r && r.state.Registered? && Tops(rs, r)
    ensures !RegistrationsAge(rs, rs')
  {
    if RegistrationsAge(rs, rs') {
      assert rs[r.id] == r;
      assert rs[r.id].Joins(r.buffer, r.endpoint);
    }
  }

  /** A step of a sound coordinator leaves every registration what it was, or weaker, exactly when it does
      not record a registration under an id that is already taken. */
  lemma AgesIffIdIsFresh(sys: System, a: Action, sys': System)
    requires IsStep(sys, a, sys') && Inv(sys.st)
    ensures RegistrationsAge(sys.st.registrations, sys'.st.registrations) <==> TakesFreshId(sys, a)
  {
    hide Enabled, NextState, NextCalls, RegistrationsAge, Grantable, Inv;
    if TakesFreshId(sys, a) {
      StepAges(sys, a, sys');
    } else {
      RegisterStepGrants(sys, a);
      RegisterStepIsNewest(sys, a);
      var step := RegisterBuffer(sys.st, a.registration, a.grant, a.latest);
      OverwritingIsNotAging(sys.st.registrations, sys'.st.registrations, step.reply.value);
    }
  }

  lemma RegisterStepIsNewest(sys: System, a: Action)
    requires Enabled(sys, a) && Inv(sys.st) && a.DoRegisterBuffer?
    requires Grantable(sys.st, a.registration, a.grant, a.latest)
    ensures
      var r := RegisterBuffer(sys.st, a.registration, a.grant, a.latest).reply;
      r.Ok? && r.value.state.Registered? && Tops(sys.st.registrations, r.value)
  {
    hide Inv, RegisterBuffer, Grantable, Tops, IsLatest;
    GrantIsNewest(sys.st, a.registration, a.grant, a.latest);
  }

  /** A reused id misleads `begin`. A plan bound to the first registration of its pair is still admitted
      after the backend gives the same id to the first registration of another pair. */
  lemma ReusedIdMisleadsBegin(s: State, planId: nat, caller: Authority, run: BackendRun,
                              p: RegisterParams, grant: BackendGrant)
    requires Inv(s) && planId in s.plans && BeginTransfer(s, planId, caller, run).reply.Ok?
    requires s.plans[planId].registrationId != 0 && s.plans[planId].registrationGeneration == 1
    requires IsLatest(s.registrations, p.buffer, p.endpoint, None)
    requires RegisterRejection(s, p).None? && grant.Granted? && grant.id == s.plans[planId].registrationId
    ensures
      var s', id := RegisterBuffer(s, p, grant, None).state, s.plans[planId].registrationId;
      && BeginTransfer(s', planId, caller, run).reply.Ok? && s'.plans == s.plans
      && id in s'.registrations && s'.registrations[id].Joins(p.buffer, p.endpoint)
      && id in s.registrations && !s.registrations[id].Joins(p.buffer, p.endpoint)
  {
    hide Inv, RegisterRejection, NewAttempt;
    BufferIdIsKey(s, p.buffer);
    EndpointIdIsKey(s, p.endpoint);
    var s' := RegisterBuffer(s, p, grant, None).state;
    assert s' == s.(registrations := s'.registrations, freshness := s'.freshness, buffers := s'.buffers);
  }
}
