/** Where authority was made: every REGISTERED registration and every authoritative plan that was not there
    at the start of a run was recorded by a step of it. These laws hold from any state, reachable or not. */
module Origins {
  import opened CoordinatorModel
  import opened Protocol
  import opened Grants
  import opened Runs

  // ---------------------------------------------------------------------
  // Authority comes only from steps
  // ---------------------------------------------------------------------

  lemma CommitStepAuthorizes(sys: System, a: Action, k: nat)
    requires Enabled(sys, a) && a.DoCommitPlan?
    requires k in NextState(sys, a).plans && NextState(sys, a).plans[k].authoritative
    ensures
      var p := NextState(sys, a).plans[k];
      Commits(sys, a, p) || (k in sys.st.plans && sys.st.plans[k] == p)
  {
    hide CommitPlan, IsLatest, RegisteredOnly;
    PlanningAuthorizes(sys.st, sys.calls[a.call].request, sys.calls[a.call].decision, a.chosen, a.explanation);
  }

  lemma AuthorityIsCommitted(sys: System, a: Action, sys': System, k: nat)
    requires IsStep(sys, a, sys') && k in sys'.st.plans && sys'.st.plans[k].authoritative
    ensures Commits(sys, a, sys'.st.plans[k]) || (k in sys.st.plans && sys.st.plans[k] == sys'.st.plans[k])
  {
    hide Enabled, NextState, NextCalls, Commits, Recorded, RegistrationsAge, GrantsOnly;
    if !MayGrant(a) {
      OthersGrantNothing(sys, a);
    } else if a.DoCommitPlan? {
      CommitStepAuthorizes(sys, a, k);
    } else {
      RegisterStepLeavesPlans(sys, a);
    }
  }

  lemma RegisterStepLeavesPlans(sys: System, a: Action)
    requires Enabled(sys, a) && a.DoRegisterBuffer?
    ensures NextState(sys, a).plans == sys.st.plans
  {
    hide Enabled, NextState, RegistrationsAge, GrantsOnly, Grantable, RegisterBuffer;
    RegisterStepGrants(sys, a);
  }

  lemma StandingIsRecorded(sys: System, a: Action, sys': System, k: nat)
    requires IsStep(sys, a, sys') && k in sys'.st.registrations && sys'.st.registrations[k].state.Registered?
    ensures Registers(sys, a, sys'.st.registrations[k]) ||
            (k in sys.st.registrations && sys.st.registrations[k] == sys'.st.registrations[k])
  {
    hide Enabled, NextState, NextCalls, Grantable, RegisterBuffer, RegistrationsAge, AuthorizesOnly;
    if !MayGrant(a) {
      OthersGrantNothing(sys, a);
    } else if a.DoCommitPlan? {
      CommitLeavesRegistrations(sys, a);
    } else {
      RegisterStepGrants(sys, a);
    }
  }

  lemma {:induction false} PlanWasMade(r: Run, i: nat, k: nat) returns (j: nat)
    requires IsRun(r) && i < |r.states| && k in r.states[i].st.plans && r.states[i].st.plans[k].authoritative
    requires forall p :: p in r.states[0].st.plans ==> !r.states[0].st.plans[p].authoritative
    ensures j < i && Commits(r.states[j], r.actions[j], r.states[i].st.plans[k])
    decreases i
  {
    hide IsStep, Commits;
    StepOf(r, i - 1);
    AuthorityIsCommitted(r.states[i - 1], r.actions[i - 1], r.states[i], k);
    if Commits(r.states[i - 1], r.actions[i - 1], r.states[i].st.plans[k]) {
      j := i - 1;
    } else {
      j := PlanWasMade(r, i - 1, k);
    }
  }

  lemma {:induction false} RegistrationWasMade(r: Run, i: nat, k: nat) returns (j: nat)
    requires IsRun(r) && i < |r.states|
    requires k in r.states[i].st.registrations && r.states[i].st.registrations[k].state.Registered?
    requires forall q :: q in r.states[0].st.registrations ==> !r.states[0].st.registrations[q].state.Registered?
    ensures j < i && Registers(r.states[j], r.actions[j], r.states[i].st.registrations[k])
    decreases i
  {
    hide IsStep, Registers;
    StepOf(r, i - 1);
    StandingIsRecorded(r.states[i - 1], r.actions[i - 1], r.states[i], k);
    if Registers(r.states[i - 1], r.actions[i - 1], r.states[i].st.registrations[k]) {
      j := i - 1;
    } else {
      j := RegistrationWasMade(r, i - 1, k);
    }
  }
}
