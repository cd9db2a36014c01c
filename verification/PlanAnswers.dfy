/** When a decision becomes a plan, and what the plan and its stages are, written out in terms of the tables. */
module PlanAnswers {
  import opened Types
  import opened PathPlanner
  import opened CoordinatorModel
  import opened Protocol
  import opened Invariants
  import opened Steps
  import opened TransferSteps
  import opened Runs
  import opened Histories
  import opened Lifetimes

  // ---------------------------------------------------------------------
  // The commit
  // ---------------------------------------------------------------------

  ghost predicate IsRegisteredPair(s: State, b: nat, e: nat, k: nat) {
    k in s.registrations && s.registrations[k].state.Registered? && s.registrations[k].Joins(b, e)
  }

  /** The decision offers a path, there is room, both objects are there with the generations it was taken on, and a
      direct path has a REGISTERED registration. */
  ghost predicate Committable(s: State, req: Request, d: Decision) {
    && (IsDirect(d.eligibility) || (d.eligibility.FallbackRequired? && d.fallbackAvailable))
    && |s.plans| < s.limits.plans
    && req.source in s.buffers && s.buffers[req.source].generation == d.sourceGeneration
    && req.destination in s.endpoints && s.endpoints[req.destination].generation == d.destinationGeneration
    && (IsDirect(d.eligibility) ==> exists k :: IsRegisteredPair(s, req.source, req.destination, k))
  }

  lemma ChosenIff(s: State, req: Request, chosen: Option<nat>)
    requires Inv(s) && req.source in s.buffers && req.destination in s.endpoints
    requires IsLatest(RegisteredOnly(s.registrations), s.buffers[req.source].id, s.endpoints[req.destination].id,
                      chosen)
    ensures s.buffers[req.source].id == req.source && s.endpoints[req.destination].id == req.destination
    ensures chosen.Some? <==> exists k :: IsRegisteredPair(s, req.source, req.destination, k)
    ensures chosen.Some? ==> IsRegisteredPair(s, req.source, req.destination, chosen.value)
    ensures forall k :: IsRegisteredPair(s, req.source, req.destination, k) ==>
              s.registrations[k].id == k && chosen == Some(k)
  {
    hide Inv;
    BufferIdIsKey(s, req.source);
    EndpointIdIsKey(s, req.destination);
    forall k | IsRegisteredPair(s, req.source, req.destination, k)
      ensures s.registrations[k].id == k && chosen == Some(k)
    {
      RegisteredIsCurrent(s, k);
      assert k in RegisteredOnly(s.registrations);
      RegisteredIsCurrent(s, chosen.value);
    }
    if chosen.Some? { assert IsRegisteredPair(s, req.source, req.destination, chosen.value); }
  }

  /** The plan the commit makes: for the objects as they are, owned by the source's owner, bound to the pair's
      REGISTERED registration if there is one. */
  ghost predicate IsPlanFor(s: State, req: Request, d: Decision, explanation: Text, p: Plan) {
    && p.id == s.nextId + 1 && p.pathGeneration == s.nextId + 2 && p.generation == 1 && p.authoritative
    && p.source == req.source && p.sourceGeneration == d.sourceGeneration
    && p.destination == req.destination && p.destinationGeneration == d.destinationGeneration
    && p.policy == req.policy && p.expectedBytes == req.size && p.eligibility == d.eligibility
    && p.support == d.support && p.provenance == d.provenance && p.explanation == explanation && p.epoch == s.epoch
    && req.source in s.buffers && p.authority == s.buffers[req.source].authority
    && (forall k :: IsRegisteredPair(s, req.source, req.destination, k) ==>
          && p.registrationId == k && p.registrationGeneration == s.registrations[k].generation
          && p.registrationBufferGeneration == s.registrations[k].bufferGeneration)
    && ((forall k :: !IsRegisteredPair(s, req.source, req.destination, k)) ==>
          p.registrationId == 0 && p.registrationGeneration == 0 && p.registrationBufferGeneration == 0)
  }

  /** A direct plan is one stage of the decided class; a staged plan has two, of the selected fallback's class. */
  ghost predicate StagesFollow(p: Plan, d: Decision) {
    if p.Direct() then
      && p.copyCount == 1 && |p.stages| == 1
      && p.stages[0] == TransferStage(d.directClass, d.support, d.provenance, p.source, 0, p.destination, true)
    else
      && p.copyCount == 2 && |p.stages| == 2
      && forall i :: 0 <= i < 2 ==>
           && p.stages[i].support.Synthetic? && p.stages[i].provenance.SyntheticFixture?
           && (d.selectedFallback.Some? ==> p.stages[i].pathClass == d.selectedFallback.value.pathClass)
  }

  /** Between its two stages a staged plan passes through a buffer that is new in this step: pinned host memory of
      the requested size, active, and owned by the source's owner. */
  ghost predicate StagesThroughNewBuffer(s: State, s': State, req: Request, p: Plan) {
    && |p.stages| == 2 && req.source in s.buffers
    && var t := p.stages[0].dst;
       && t == s.nextId + 3 && t !in s.buffers && t in s'.buffers && s'.buffers == s.buffers[t := s'.buffers[t]]
       && s'.buffers[t].id == t && s'.buffers[t].generation == 1 && s'.buffers[t].lifecycle.Active?
       && s'.buffers[t].domain.HostPinned? && s'.buffers[t].size == req.size && s'.buffers[t].alignment == 64
       && s'.buffers[t].authority == s.buffers[req.source].authority && s'.buffers[t].registrationState.Unregistered?
       && s'.buffers[t].registrationId == 0 && s'.buffers[t].support.Synthetic?
       && s'.buffers[t].provenance.SyntheticFixture? && s'.buffers[t].freshness == s.freshness + 1
  }

  /** All that a commit changes. */
  ghost predicate FilesPlan(s: State, s': State, req: Request, p: Plan) {
    && s'.plans == s.plans[p.id := p]
    && if p.Direct() then s' == s.(nextId := s.nextId + 2, plans := s'.plans)
       else
         && StagesThroughNewBuffer(s, s', req, p)
         && s' == s.(nextId := s.nextId + 3, freshness := s.freshness + 1, buffers := s'.buffers, plans := s'.plans)
  }

  lemma CommitAnswerIff(s: State, req: Request, d: Decision, chosen: Option<nat>, explanation: Text)
    requires Inv(s)
    requires req.source in s.buffers && req.destination in s.endpoints ==>
               IsLatest(RegisteredOnly(s.registrations), s.buffers[req.source].id, s.endpoints[req.destination].id,
                        chosen)
    ensures CommitPlan(s, req, d, chosen, explanation).reply.Ok? <==> Committable(s, req, d)
    ensures CommitPlan(s, req, d, chosen, explanation).reply.Err? ==>
              CommitPlan(s, req, d, chosen, explanation).state == s
  {
    hide Inv, IsLatest, RegisteredOnly, FilePlan, PlanFor, LeavesWorkers, IsRegisteredPair;
    if req.source in s.buffers && req.destination in s.endpoints { ChosenIff(s, req, chosen); }
  }

  lemma PlanForIsPlan(s: State, req: Request, d: Decision, chosen: Option<nat>, explanation: Text)
    requires Inv(s) && Committable(s, req, d)
    requires IsLatest(RegisteredOnly(s.registrations), s.buffers[req.source].id, s.endpoints[req.destination].id,
                      chosen)
    ensures chosen.Some? ==> chosen.value in s.registrations
    ensures
      var reg := if chosen.Some? then Some(s.registrations[chosen.value]) else None;
      var p := PlanFor(s, req, d, reg, explanation);
      IsPlanFor(s, req, d, explanation, p) && StagesFollow(p, d) && WellStaged(p)
  {
    hide Inv, IsLatest, RegisteredOnly;
    ChosenIff(s, req, chosen);
  }

  lemma FilingFiles(s: State, req: Request, d: Decision, explanation: Text, p: Plan)
    requires Inv(s) && req.source in s.buffers && IsPlanFor(s, req, d, explanation, p)
    requires !p.Direct() ==> |p.stages| == 2 && p.stages[0].dst == s.nextId + 3
    ensures FilesPlan(s, FilePlan(s, req, p), req, p)
  {
    hide Inv, LeavesWorkers, IsRegisteredPair;
    BufferIdsAreOld(s);
  }

  lemma BufferIdsAreOld(s: State)
    requires Inv(s)
    ensures forall k :: k in s.buffers ==> k <= s.nextId
  {
    hide WorkersSound, EndpointsSound, DevicesSound, CapabilitiesSound, InventorySound, RegistrationsSound;
    hide RegisteredSound, PlansSound, LedgerSound, Seen;
  }

  /** A decision becomes a plan exactly when it is committable; the plan is filed with stages that lead from its
      source to its destination, and with the buffer it passes through if it is staged. */
  lemma CommitAnswer(s: State, req: Request, d: Decision, chosen: Option<nat>, explanation: Text)
    requires Inv(s)
    requires req.source in s.buffers && req.destination in s.endpoints ==>
               IsLatest(RegisteredOnly(s.registrations), s.buffers[req.source].id, s.endpoints[req.destination].id,
                        chosen)
    ensures
      var step := CommitPlan(s, req, d, chosen, explanation);
      && (step.reply.Ok? <==> Committable(s, req, d)) && (step.reply.Err? ==> step.state == s)
      && (step.reply.Ok? ==>
            && IsPlanFor(s, req, d, explanation, step.reply.value) && StagesFollow(step.reply.value, d)
            && WellStaged(step.reply.value) && FilesPlan(s, step.state, req, step.reply.value))
  {
    hide Inv, IsLatest, RegisteredOnly, FilePlan, PlanFor, LeavesWorkers, IsPlanFor, StagesFollow, WellStaged;
    hide FilesPlan;
    CommitAnswerIff(s, req, d, chosen, explanation);
    if Committable(s, req, d) {
      PlanForIsPlan(s, req, d, chosen, explanation);
      var reg := if chosen.Some? then Some(s.registrations[chosen.value]) else None;
      var p := PlanFor(s, req, d, reg, explanation);
      StagesPassThrough(s, req, d, reg, explanation);
      FilingFiles(s, req, d, explanation, p);
    }
  }

  lemma StagesPassThrough(s: State, req: Request, d: Decision, reg: Option<Registration>, explanation: Text)
    requires req.source in s.buffers && req.destination in s.endpoints
    ensures
      var p := PlanFor(s, req, d, reg, explanation);
      && (p.Direct() <==> IsDirect(d.eligibility))
      && (!p.Direct() ==> |p.stages| == 2 && p.stages[0].dst == s.nextId + 3)
  {
  }

  /** Which objection is raised: what the decision says, then the first in this order. */
  lemma CommitRefusal(s: State, req: Request, d: Decision, chosen: Option<nat>, explanation: Text)
    requires Inv(s) && !Committable(s, req, d)
    requires req.source in s.buffers && req.destination in s.endpoints ==>
               IsLatest(RegisteredOnly(s.registrations), s.buffers[req.source].id, s.endpoints[req.destination].id,
                        chosen)
    ensures CommitPlan(s, req, d, chosen, explanation).reply.Err?
    ensures
      var code := CommitPlan(s, req, d, chosen, explanation).reply.code;
      if !IsDirect(d.eligibility) && !(d.eligibility.FallbackRequired? && d.fallbackAvailable) then
        code == RefusalCode(d.eligibility)
      else if |s.plans| >= s.limits.plans then code == ResourceLimit
      else if req.source !in s.buffers then code == StaleBuffer
      else if s.buffers[req.source].generation != d.sourceGeneration then code == StaleGeneration
      else if req.destination !in s.endpoints then code == StaleEndpoint
      else if s.endpoints[req.destination].generation != d.destinationGeneration then code == StaleEndpoint
      else code == RegistrationStaleError
  {
    hide Inv, IsLatest, RegisteredOnly, FilePlan, PlanFor, LeavesWorkers, IsRegisteredPair;
    CommitAnswerIff(s, req, d, chosen, explanation);
    if !IsDirect(d.eligibility) { RefusalCodes(d.eligibility); }
  }

  /** The code under which each outcome without a path is reported. */
  function RefusalCode(e: PathEligibility): ErrorCode {
    if e.RegistrationRequired? then RegistrationRequiredError
    else if e.RegistrationStale? then RegistrationStaleError
    else if e.EndpointStale? then StaleEndpoint
    else if e.DeviceStale? then StaleGeneration
    else if e.TopologyIncompatible? then TopologyIncompatibleError
    else if e.ProviderUnavailable? then ProviderUnavailableError
    else if e.NoValidPath? then NoValidPathError
    else if e.PathRevalidationRequired? then RevalidationRequiredError
    else if e.InsufficientEvidence? then DirectUnavailable
    else if e.PolicyRejected? then FallbackDisallowed
    else if e.InvalidBuffer? then InvalidBufferError
    else UnsupportedError
  }

  lemma RefusalCodes(e: PathEligibility)
    requires !IsDirect(e)
    ensures ErrorFor(e) == RefusalCode(e)
  {
  }

  // ---------------------------------------------------------------------
  // Whole runs
  // ---------------------------------------------------------------------

  /** In every run, every plan made since the last restart is well staged, for as long as it is kept. */
  lemma PlansAreStaged(r: Run, i: nat, k: nat)
    requires IsLife(r) && i < |r.states| && k in r.states[i].st.plans && k !in r.states[0].st.plans
    ensures WellStaged(r.states[i].st.plans[k])
  {
    hide IsLife, Lawful, Powerless, Inv, WellStaged, PlansEvolve, LedgerEvolves;
    hide WorkersEvolve, BuffersEvolve, EndpointsEvolve;
    LifeIsLawful(r);
    var ss := StatesOf(r);
    var commit := PlanWasCommitted(ss, i, k);
    SoundAt(ss, commit + 1);
    PlanStays(ss, commit + 1, i, k);
    StagingIgnoresAuthority(ss[commit + 1].plans[k], ss[i].plans[k]);
  }

  lemma StagingIgnoresAuthority(p: Plan, p': Plan)
    requires WellStaged(p) && p' == p.(authoritative := p'.authoritative)
    ensures WellStaged(p')
  {
  }
}
