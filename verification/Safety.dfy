/** Safety of every run of a coordinator's life, under every interleaving and every backend. */
module Safety {
  import opened Types
  import opened CoordinatorModel
  import opened Protocol
  import opened Invariants
  import opened TransferSteps
  import opened Runs
  import opened Lifetimes
  import opened Histories

  // ---------------------------------------------------------------------
  // Plans
  // ---------------------------------------------------------------------

  /** A direct plan made since the last restart is authoritative exactly while it describes the objects as
      they are and its source is active; one made before is not. For every plan, authority means that the
      rechecks of `begin` pass. */
  lemma AuthoritativeIffCurrent(r: Run, i: nat, k: nat)
    requires IsLife(r) && i < |r.states| && k in r.states[i].st.plans
    ensures
      var s := r.states[i].st;
      var p := s.plans[k];
      var made := k !in r.states[0].st.plans;
      && (p.Direct() ==> (p.authoritative <==> made && InForce(p, s.buffers, s.endpoints, s.epoch)))
      && (p.authoritative ==> made && UpToDate(p, s.buffers, s.endpoints, s.epoch))
      && (made && InForce(p, s.buffers, s.endpoints, s.epoch) ==> p.authoritative)
  {
    hide IsLife, Lawful, InForce, PlanSound, UpToDate;
    LifeIsLawful(r);
    PlanFacts(StatesOf(r), i, k);
    AuthorityIsFair(StatesOf(r), i, k);
    SoundPlanIsInForce(r.states[i].st.plans[k], r.states[i].st);
  }

  lemma SoundPlanIsInForce(p: Plan, s: State)
    requires PlanSound(p, s.buffers, s.endpoints, s.epoch)
    ensures p.authoritative ==> UpToDate(p, s.buffers, s.endpoints, s.epoch)
    ensures p.authoritative && p.Direct() ==> InForce(p, s.buffers, s.endpoints, s.epoch)
  {
  }

  /** Authority at a moment means that the plan was not there at a powerless start; without authority, a plan
      made since is not in force. */
  lemma AuthorityIsFair(ss: seq<State>, i: nat, k: nat)
    requires Lawful(ss) && Powerless(ss[0]) && i < |ss| && k in ss[i].plans
    ensures ss[i].plans[k].authoritative ==> k !in ss[0].plans
    ensures k !in ss[0].plans && !ss[i].plans[k].authoritative ==>
              !InForce(ss[i].plans[k], ss[i].buffers, ss[i].endpoints, ss[i].epoch)
  {
    hide Lawful, InForce;
    if k in ss[0].plans { PlanStays(ss, 0, i, k); } else if !ss[i].plans[k].authoritative { LapsedFairly(ss, i, k); }
  }

  /** A plan appears only by a commit that, whatever happened since the snapshot, binds a registration
      that is REGISTERED at that moment for exactly this pair, with all generations current. */
  lemma CommittedPlanIsBound(r: Run, i: nat, k: nat)
    requires IsLife(r) && i + 1 < |r.states| && k !in r.states[i].st.plans && k in r.states[i + 1].st.plans
    requires r.states[i + 1].st.plans[k].Direct()
    ensures
      var s := r.states[i + 1].st;
      var p := s.plans[k];
      && p.authoritative && UpToDate(p, s.buffers, s.endpoints, s.epoch)
      && BoundTo(p, s.registrations) && p.registrationBufferGeneration == p.sourceGeneration
      && Current(s.registrations[p.registrationId], s.registrations, s.buffers, s.endpoints, s.epoch, s.workers)
  {
    hide IsLife, Lawful;
    LifeIsLawful(r);
    BoundAtCommit(StatesOf(r), i, k);
  }

  lemma BoundAtCommit(ss: seq<State>, i: nat, k: nat)
    requires Lawful(ss) && i + 1 < |ss| && k !in ss[i].plans && k in ss[i + 1].plans && ss[i + 1].plans[k].Direct()
    ensures
      var s := ss[i + 1];
      var p := s.plans[k];
      && p.authoritative && UpToDate(p, s.buffers, s.endpoints, s.epoch)
      && BoundTo(p, s.registrations) && p.registrationBufferGeneration == p.sourceGeneration
      && s.registrations == ss[i].registrations
      && Current(s.registrations[p.registrationId], s.registrations, s.buffers, s.endpoints, s.epoch, s.workers)
  {
    hide Lawful, WorkersSound, BuffersSound, EndpointsSound, DevicesSound;
    hide CapabilitiesSound, InventorySound, PlansSound, LedgerSound, Current;
    hide WorkersEvolve, BuffersEvolve, EndpointsEvolve, PlansEvolve, LedgerEvolves, RegistrationsSound;
    PlanFacts(ss, i + 1, k);
    SoundAt(ss, i + 1);
  }

  // ---------------------------------------------------------------------
  // Completion
  // ---------------------------------------------------------------------

  /** The attempt reaches COMPLETED in step j. */
  ghost predicate CompletesAt(ss: seq<State>, j: nat, k: nat) {
    && j + 1 < |ss| && k in ss[j + 1].attempts && ss[j + 1].attempts[k].state.Completed?
    && !(k in ss[j].attempts && ss[j].attempts[k].state.Completed?)
  }

  lemma CompletedUnderAuthority(ss: seq<State>, j: nat, k: nat)
    requires Lawful(ss) && CompletesAt(ss, j, k)
    ensures k in ss[j].attempts && ss[j].attempts[k].planId in ss[j].plans
    ensures ss[j].plans[ss[j].attempts[k].planId].authoritative
    ensures ss[j + 1].plans == ss[j].plans && ss[j + 1].attempts[k].planId == ss[j].attempts[k].planId
  {
    hide Lawful, Inv, WorkersEvolve, BuffersEvolve, EndpointsEvolve, PlansEvolve, PlansAreBound, MayBegin;
    SoundAt(ss, j + 1);
  }

  /** Between commit and completion nothing the plan depends on has moved. */
  ghost predicate HeldBetween(ss: seq<State>, commit: nat, j: nat, k: nat)
    requires j < |ss| && k in ss[j].plans
  {
    forall m :: commit < m <= j ==> HeldAt(ss[m], ss[j].plans[k])
  }

  /** The plan is in force: in the table, with its epoch and generations current and its source active. */
  ghost predicate HeldAt(s: State, p: Plan) {
    && p.id in s.plans && s.plans[p.id] == p && p.authoritative
    && UpToDate(p, s.buffers, s.endpoints, s.epoch) && s.buffers[p.source].lifecycle.Active?
  }

  lemma HeldThroughout(ss: seq<State>, commit: nat, j: nat, k: nat)
    requires Lawful(ss) && commit < j < |ss| && k in ss[commit + 1].plans
    requires k in ss[j].plans && ss[j].plans[k].authoritative && ss[j].plans[k].Direct()
    ensures HeldBetween(ss, commit, j, k)
  {
    hide Lawful;
    forall m | commit < m <= j ensures HeldAt(ss[m], ss[j].plans[k]) {
      PlanStays(ss, commit + 1, m, k);
      PlanStays(ss, m, j, k);
      PlanFacts(ss, m, k);
      SoundAt(ss, m);
      PlanIdIsKey(ss[m], k);
    }
  }

  /** The attempt k completing in step j was begun in step `begin` at a plan committed in step `commit`,
      and from the commit through the completion the plan was in force in every state. */
  ghost predicate Fenced(ss: seq<State>, commit: nat, begin: nat, j: nat, k: nat) {
    && commit < begin < j && j + 1 < |ss| && k in ss[j + 1].attempts
    && var p := ss[j + 1].attempts[k].planId;
       && p in ss[j + 1].plans && p !in ss[commit].plans && p in ss[commit + 1].plans
       && k !in ss[begin].attempts && k in ss[begin + 1].attempts
       && HeldBetween(ss, commit, j + 1, p)
  }

  /** From the commit to the begin the plan's registration was held in every state. */
  ghost predicate GrantHeldBetween(ss: seq<State>, commit: nat, begin: nat, p: Plan) {
    begin < |ss| && forall m :: commit <= m <= begin ==> GrantHeldAt(ss[m], ss[commit], p)
  }

  /** When a direct transfer completes, its plan was committed and then begun in this run, and from the
      commit through the completion the epoch and both generations have been the plan's own and the
      source active in every state. If backends give fresh registration ids, the plan's registration was
      REGISTERED in every state from the commit to the begin, unchanged and current. */
  lemma CompletedTransferWasFenced(r: Run, j: nat, k: nat, p: Plan) returns (commit: nat, begin: nat)
    requires IsLife(r) && CompletesAt(StatesOf(r), j, k) && p.Direct()
    requires p.id == r.states[j + 1].st.attempts[k].planId
    requires p.id in r.states[j + 1].st.plans ==> p == r.states[j + 1].st.plans[p.id]
    ensures Fenced(StatesOf(r), commit, begin, j, k) && p.id in r.states[j + 1].st.plans
    ensures HasFreshIds(r) ==> GrantHeldBetween(StatesOf(r), commit, begin, p)
  {
    hide IsLife, IsRun, Lawful, Powerless, Aging, HasFreshIds, Fenced, GrantHeldBetween;
    LifeIsLawful(r);
    if HasFreshIds(r) { FreshIdsAge(r); }
    commit, begin := FencedInHistory(StatesOf(r), j, k, p);
  }

  lemma FencedInHistory(ss: seq<State>, j: nat, k: nat, p: Plan) returns (commit: nat, begin: nat)
    requires Lawful(ss) && Powerless(ss[0]) && CompletesAt(ss, j, k) && p.Direct()
    requires p.id == ss[j + 1].attempts[k].planId
    requires p.id in ss[j + 1].plans ==> p == ss[j + 1].plans[p.id]
    ensures Fenced(ss, commit, begin, j, k) && p.id in ss[j + 1].plans
    ensures Aging(ss) ==> GrantHeldBetween(ss, commit, begin, p)
  {
    hide Lawful, Aging, MayBegin, HeldBetween, GrantHeldAt;
    CompletedUnderAuthority(ss, j, k);
    AuthorityIsFair(ss, j, p.id);
    commit := PlanWasCommitted(ss, j, p.id);
    begin := AttemptWasBegun(ss, j, k);
    CommitPrecedesBegin(ss, commit, begin, p.id);
    HeldThroughout(ss, commit, j + 1, p.id);
    if Aging(ss) {
      PlanStays(ss, commit + 1, j + 1, p.id);
      GrantHeldThroughout(ss, commit, begin, p.id);
    }
  }

  lemma CommitPrecedesBegin(ss: seq<State>, commit: nat, begin: nat, k: nat)
    requires Lawful(ss) && commit < |ss| && begin < |ss| && k !in ss[commit].plans && k in ss[begin].plans
    ensures commit < begin
  {
    hide Lawful;
    if begin <= commit { PlanStays(ss, begin, commit, k); }
  }

  /** The registration the plan was bound to is REGISTERED, for the plan's pair, unchanged, and current. */
  ghost predicate GrantHeldAt(s: State, atCommit: State, p: Plan) {
    && BoundTo(p, s.registrations)
    && p.registrationId in atCommit.registrations
    && s.registrations[p.registrationId] == atCommit.registrations[p.registrationId]
    && Current(s.registrations[p.registrationId], s.registrations, s.buffers, s.endpoints, s.epoch, s.workers)
  }

  lemma GrantHeldThroughout(ss: seq<State>, commit: nat, begin: nat, k: nat)
    requires Lawful(ss) && Aging(ss) && commit < begin < |ss| && k !in ss[commit].plans && k in ss[commit + 1].plans
    requires ss[commit + 1].plans[k].Direct() && k in ss[begin].plans && MayBegin(ss[begin], ss[begin].plans[k])
    ensures forall m :: commit <= m <= begin ==> GrantHeldAt(ss[m], ss[commit], ss[commit + 1].plans[k])
  {
    hide Lawful, Aging, Current, UpToDate, PlanSound;
    var p := ss[commit + 1].plans[k];
    BoundAtCommit(ss, commit, k);
    PlanStays(ss, commit + 1, begin, k);
    PlanFacts(ss, commit + 1, k);
    BoundHasId(p, ss[commit + 1]);
    forall m | commit <= m <= begin ensures GrantHeldAt(ss[m], ss[commit], p) {
      RegisteredSince(ss, commit, m, p.registrationId);
      RegisteredSince(ss, m, begin, p.registrationId);
      SoundAt(ss, m);
      RegisteredIsCurrent(ss[m], p.registrationId);
    }
  }

  lemma BoundHasId(p: Plan, s: State)
    requires PlanSound(p, s.buffers, s.endpoints, s.epoch) && p.Direct()
    ensures p.registrationId != 0
  {
  }

  /** With fresh ids, whenever `begin` admits an attempt at a direct plan, the plan's registration is the
      newest of the plan's own pair and every recorded generation is the current one. */
  lemma BegunOnOwnRegistration(r: Run, i: nat, k: nat)
    requires IsLife(r) && HasFreshIds(r) && i + 1 < |r.states|
    requires k !in r.states[i].st.attempts && k in r.states[i + 1].st.attempts
    ensures
      var s := r.states[i].st;
      var planId := r.states[i + 1].st.attempts[k].planId;
      planId in s.plans &&
      var p := s.plans[planId];
      (p.Direct() ==>
         && HeldAt(s, p) && BoundTo(p, s.registrations)
         && p.registrationBufferGeneration == p.sourceGeneration
         && Current(s.registrations[p.registrationId], s.registrations, s.buffers, s.endpoints, s.epoch, s.workers))
  {
    hide IsLife, Lawful, Aging, HasFreshIds, MayBegin, HeldAt, GrantHeldAt, BoundTo, Current;
    var ss := StatesOf(r);
    LifeIsLawful(r);
    FreshIdsAge(r);
    BegunUnderChecks(ss, i, k);
    var planId := ss[i + 1].attempts[k].planId;
    BegunPlanIsAuthoritative(ss[i], ss[i].plans[planId]);
    AuthorityIsFair(ss, i, planId);
    if ss[i].plans[planId].Direct() {
      BegunWithGrant(ss, i, planId);
    }
  }

  lemma BegunUnderChecks(ss: seq<State>, i: nat, k: nat)
    requires Lawful(ss) && i + 1 < |ss| && k !in ss[i].attempts && k in ss[i + 1].attempts
    ensures ss[i + 1].attempts[k].planId in ss[i].plans && MayBegin(ss[i], ss[i].plans[ss[i + 1].attempts[k].planId])
  {
    hide Lawful, Inv, WorkersEvolve, BuffersEvolve, EndpointsEvolve, PlansEvolve, PlansAreBound, MayBegin;
    SoundAt(ss, i + 1);
  }

  lemma BegunPlanIsAuthoritative(s: State, p: Plan)
    requires MayBegin(s, p)
    ensures p.authoritative
  {
    hide UpToDate, RegistrationHolds;
  }

  lemma BegunWithGrant(ss: seq<State>, i: nat, k: nat)
    requires Lawful(ss) && Aging(ss) && i < |ss| && k !in ss[0].plans
    requires k in ss[i].plans && ss[i].plans[k].Direct() && MayBegin(ss[i], ss[i].plans[k])
    ensures
      var s := ss[i];
      var p := s.plans[k];
      && HeldAt(s, p) && BoundTo(p, s.registrations) && p.registrationBufferGeneration == p.sourceGeneration
      && Current(s.registrations[p.registrationId], s.registrations, s.buffers, s.endpoints, s.epoch, s.workers)
  {
    hide Lawful, Aging, BoundTo, Current, UpToDate, RegistrationHolds;
    var commit := PlanWasCommitted(ss, i, k);
    PlanStays(ss, commit + 1, i, k);
    PlanFacts(ss, i, k);
    SoundAt(ss, i);
    PlanIdIsKey(ss[i], k);
    GrantHeldThroughout(ss, commit, i, k);
    assert GrantHeldAt(ss[i], ss[commit], ss[commit + 1].plans[k]);
  }
}
