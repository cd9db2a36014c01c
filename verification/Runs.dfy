/** Runs as sequences of sound states, each evolving lawfully into the next. */
module Runs {
  import opened CoordinatorModel
  import opened Protocol
  import opened Invariants
  import opened Reachability
  import opened Grants

  ghost predicate Lawful(ss: seq<State>) {
    && |ss| > 0
    && (forall i :: 0 <= i < |ss| ==> Inv(ss[i]))
    && (forall i :: 0 < i < |ss| ==> Evolves(ss[i - 1], ss[i]))
  }

  /** No registration id is given out twice. */
  ghost predicate Aging(ss: seq<State>) {
    forall i :: 0 < i < |ss| ==> RegistrationsAge(ss[i - 1].registrations, ss[i].registrations)
  }

  ghost function StatesOf(r: Run): (ss: seq<State>)
    ensures |ss| == |r.states| && forall i :: 0 <= i < |ss| ==> ss[i] == r.states[i].st
  {
    seq(|r.states|, i requires 0 <= i < |r.states| => r.states[i].st)
  }

  ghost predicate HasFreshIds(r: Run) {
    |r.states| == |r.actions| + 1 && forall i :: 0 <= i < |r.actions| ==> TakesFreshId(r.states[i], r.actions[i])
  }

  lemma RunLength(r: Run)
    requires IsRun(r)
    ensures |r.states| == |r.actions| + 1
  {
    hide StepAt;
  }

  lemma RunExtends(r: Run, a: Action, sys: System)
    requires IsRun(r) && IsStep(r.states[|r.states| - 1], a, sys)
    ensures IsRun(Run(r.states + [sys], r.actions + [a]))
  {
    hide IsStep;
    var r' := Run(r.states + [sys], r.actions + [a]);
    forall i | 0 <= i < |r'.actions| ensures StepAt(r', i) {
      if i < |r.actions| { assert StepAt(r, i); }
    }
  }

  lemma StepOf(r: Run, i: nat)
    requires IsRun(r) && i < |r.actions|
    ensures IsStep(r.states[i], r.actions[i], r.states[i + 1])
  {
    hide IsStep;
    assert StepAt(r, i);
  }

  lemma StepIsLawful(sys: System, a: Action, sys': System)
    requires IsStep(sys, a, sys') && Inv(sys.st)
    ensures Inv(sys'.st) && Evolves(sys.st, sys'.st)
  {
    hide Enabled, NextState, NextCalls, Inv, Evolves;
    StepKeeps(sys, a);
  }

  lemma {:induction false} ReachesSound(r: Run, i: nat)
    requires IsRun(r) && Inv(r.states[0].st) && i < |r.states|
    ensures Inv(r.states[i].st)
    ensures i > 0 ==> Evolves(r.states[i - 1].st, r.states[i].st)
  {
    hide IsStep, Inv, Evolves;
    if i == 0 {
      // Base case: nothing to show.
    } else {
      ReachesSound(r, i - 1);
      StepOf(r, i - 1);
      StepIsLawful(r.states[i - 1], r.actions[i - 1], r.states[i]);
    }
  }

  /** Every run from a sound state is lawful from its first state to its last. */
  lemma RunIsLawful(r: Run)
    requires IsRun(r) && Inv(r.states[0].st)
    ensures Lawful(StatesOf(r))
  {
    hide IsStep, Inv, Evolves;
    RunLength(r);
    forall i | 0 <= i < |r.states|
      ensures Inv(r.states[i].st) && (i > 0 ==> Evolves(r.states[i - 1].st, r.states[i].st))
    {
      ReachesSound(r, i);
    }
  }

  // ---------------------------------------------------------------------
  // Registrations that never come back
  // ---------------------------------------------------------------------

  lemma StepAges(sys: System, a: Action, sys': System)
    requires IsStep(sys, a, sys') && TakesFreshId(sys, a)
    ensures RegistrationsAge(sys.st.registrations, sys'.st.registrations)
  {
    hide Enabled, NextState, NextCalls, RegistrationsAge, Grantable, RegistrationId;
    if !MayGrant(a) {
      OthersGrantNothing(sys, a);
    } else if a.DoCommitPlan? {
      CommitLeavesRegistrations(sys, a);
      SameAges(sys.st.registrations);
    } else {
      RegisterStepGrants(sys, a);
    }
  }

  lemma CommitLeavesRegistrations(sys: System, a: Action)
    requires Enabled(sys, a) && a.DoCommitPlan?
    ensures NextState(sys, a).registrations == sys.st.registrations
  {
    hide CommitPlan, AuthorizesOnly, IsLatest, RegisteredOnly;
    PlanningAuthorizes(sys.st, sys.calls[a.call].request, sys.calls[a.call].decision, a.chosen, a.explanation);
  }

  lemma RegisterStepGrants(sys: System, a: Action)
    requires Enabled(sys, a) && a.DoRegisterBuffer?
    ensures RegisterBuffer.requires(sys.st, a.registration, a.grant, a.latest)
    ensures NextState(sys, a) == RegisterBuffer(sys.st, a.registration, a.grant, a.latest).state
    ensures Recorded(sys.st, RegisterBuffer(sys.st, a.registration, a.grant, a.latest), RegistrationId(sys.st, a.grant),
                   Grantable(sys.st, a.registration, a.grant, a.latest))
  {
    hide RegisterBuffer, Recorded, IsLatest, Grantable, RegistrationId;
    RegistrationGrants(sys.st, a.registration, a.grant, a.latest);
  }

  lemma FreshIdsAge(r: Run)
    requires IsRun(r) && HasFreshIds(r)
    ensures Aging(StatesOf(r))
  {
    hide IsStep, TakesFreshId, RegistrationsAge;
    forall i | 0 < i < |r.states|
      ensures RegistrationsAge(r.states[i - 1].st.registrations, r.states[i].st.registrations)
    {
      StepOf(r, i - 1);
      StepAges(r.states[i - 1], r.actions[i - 1], r.states[i]);
    }
  }
}
