/** Whether what is granted is held by someone who is still there. A death marks what the worker held; a live
    worker that registers again at a higher boot leaves it REGISTERED. */
module Standing {
  import opened Types
  import opened CoordinatorModel
  import opened Protocol
  import opened Invariants
  import opened Steps
  import opened TransferSteps
  import opened Grants
  import opened Runs
  import opened Origins
  import opened Histories
  import opened Lifetimes
  import opened Safety

  // ---------------------------------------------------------------------
  // One step
  // ---------------------------------------------------------------------

  /** Every REGISTERED registration is held by a live authority. */
  ghost predicate HoldersLive(s: State) {
    forall k :: k in s.registrations && s.registrations[k].state.Registered? ==> Live(s, s.registrations[k].authority)
  }

  ghost predicate Holds(s: State, w: nat) {
    exists k :: k in s.registrations && s.registrations[k].state.Registered? && s.registrations[k].authority.worker == w
  }

  /** A live worker that holds a REGISTERED registration registers at a strictly higher boot. */
  ghost predicate Outgrows(s: State, a: Action) {
    && a.DoRegisterWorker? && a.epoch == s.epoch
    && a.worker in s.workers && s.workers[a.worker] < a.boot && Holds(s, a.worker)
  }

  /** No worker is new or has moved to another boot. */
  ghost predicate BootsStay(s: State, s': State) {
    forall w :: w in s'.workers ==> w in s.workers && s'.workers[w] == s.workers[w]
  }

  lemma RegistrationLeavesWorkers(s: State, p: RegisterParams, grant: BackendGrant, latest: Option<nat>)
    requires IsLatest(s.registrations, p.buffer, p.endpoint, latest)
    ensures RegisterBuffer(s, p, grant, latest).state.workers == s.workers
  {
    hide IsLatest, RegisterRejection, Attach, AlreadyGranted, Retire;
  }

  lemma InvalidationLeavesWorkers(s: State, b: nat, e: nat)
    ensures InvalidateBuffer(s, b).workers == s.workers && InvalidateEndpoint(s, e).workers == s.workers
  {
    hide Revalidate, Supersede;
  }

  lemma BufferEventsLeaveWorkers(s: State, id: nat, caller: Authority)
    ensures BootsStay(s, AdvanceBufferGeneration(s, id, caller).state)
    ensures BootsStay(s, RetireBuffer(s, id, caller).state)
  {
    hide InvalidateBuffer, OwnerAllows;
    if id in s.buffers {
      var now, b := s.freshness + 1, s.buffers[id];
      var advanced := b.(generation := b.generation + 1, freshness := now);
      var retired := b.(lifecycle := RetiredBuffer, freshness := now);
      InvalidationLeavesWorkers(s.(freshness := now, buffers := s.buffers[id := advanced]), id, 0);
      InvalidationLeavesWorkers(s.(freshness := now, buffers := s.buffers[id := retired]), id, 0);
    }
  }

  lemma EndpointEventsLeaveWorkers(s: State, id: nat, caller: Authority)
    ensures BootsStay(s, AdvanceEndpointGeneration(s, id, caller).state)
  {
    hide InvalidateEndpoint, OwnerAllows;
    if id in s.endpoints {
      var now, e := s.freshness + 1, s.endpoints[id];
      var advanced := e.(generation := e.generation + 1, freshness := now);
      InvalidationLeavesWorkers(s.(freshness := now, endpoints := s.endpoints[id := advanced]), 0, id);
    }
  }

  /** Only a registering worker changes boot. */
  lemma OthersKeepBoots(sys: System, a: Action)
    requires Enabled(sys, a) && !a.DoRegisterWorker?
    ensures BootsStay(sys.st, NextState(sys, a))
  {
    hide IsLatest, IsEvidence, IsNamed, IsObservation, RegisteredOnly, Revalidate, Supersede;
    hide RegisterWorker, CreateBuffer, AdvanceBufferGeneration, RetireBuffer, AddDevice;
    hide AddEndpoint, AdvanceEndpointGeneration, SetEndpointHealth, AddNic, AddStorage, AddProvider, PublishCapability;
    hide RevokeCapability, RegisterBuffer, DeregisterBuffer, CommitPlan, BeginTransfer, CompleteTransfer;
    hide CancelTransfer, VerifyTransfer;
    if a.DoRegisterBuffer? {
      RegistrationLeavesWorkers(sys.st, a.registration, a.grant, a.latest);
    } else if a.DoAdvanceBuffer? || a.DoRetireBuffer? {
      BufferEventsLeaveWorkers(sys.st, a.id, a.caller);
    } else if a.DoAdvanceEndpoint? {
      EndpointEventsLeaveWorkers(sys.st, a.id, a.caller);
    }
  }

  /** A registration is recorded only for a live authority. */
  lemma GrantedToLive(sys: System, a: Action, r: Registration)
    requires Registers(sys, a, r)
    ensures Live(sys.st, r.authority)
  {
    hide IsLatest;
  }

  /** Who held at the start of a step still holds after it, if boots stay. */
  lemma HolderStaysLive(s: State, s': State, k: nat)
    requires Inv(s') && BootsStay(s, s') && k in s'.registrations && s'.registrations[k].state.Registered?
    requires Live(s, s'.registrations[k].authority)
    ensures Live(s', s'.registrations[k].authority)
  {
    hide Inv;
    RegisteredIsCurrent(s', k);
  }

  lemma OtherStepsKeepHolders(sys: System, a: Action, sys': System)
    requires IsStep(sys, a, sys') && Inv(sys'.st) && HoldersLive(sys.st) && !a.DoRegisterWorker?
    ensures HoldersLive(sys'.st)
  {
    hide Enabled, NextState, NextCalls, Inv, Live, BootsStay, Registers;
    OthersKeepBoots(sys, a);
    forall k | k in sys'.st.registrations && sys'.st.registrations[k].state.Registered?
      ensures Live(sys'.st, sys'.st.registrations[k].authority)
    {
      var r := sys'.st.registrations[k];
      StandingIsRecorded(sys, a, sys', k);
      if Registers(sys, a, r) { GrantedToLive(sys, a, r); }
      HolderStaysLive(sys.st, sys'.st, k);
    }
  }

  lemma WorkerStepKeepsHoldersIff(s: State, w: nat, boot: nat, epoch: nat)
    requires Inv(s) && HoldersLive(s)
    ensures HoldersLive(RegisterWorker(s, w, boot, epoch).state) <==> !Outgrows(s, DoRegisterWorker(w, boot, epoch))
  {
    hide BuffersSound, EndpointsSound, DevicesSound, CapabilitiesSound, InventorySound, RegistrationsSound;
    hide RegisteredSound, PlansSound, LedgerSound, LeavesGrants;
    var s' := RegisterWorker(s, w, boot, epoch).state;
    if Outgrows(s, DoRegisterWorker(w, boot, epoch)) {
      var k :| k in s.registrations && s.registrations[k].state.Registered? && s.registrations[k].authority.worker == w;
      assert s'.registrations[k] == s.registrations[k] && !Live(s', s.registrations[k].authority);
    }
  }

  lemma WorkerStep(sys: System, a: Action)
    requires Enabled(sys, a) && a.DoRegisterWorker?
    ensures NextState(sys, a) == RegisterWorker(sys.st, a.worker, a.boot, a.epoch).state
  {
    hide RegisterWorker;
  }

  /** From a sound state whose holders are all live, a step leaves one behind exactly when it registers a live
      worker at a strictly higher boot while the worker holds a REGISTERED registration. */
  lemma HoldersStayLiveIff(sys: System, a: Action, sys': System)
    requires IsStep(sys, a, sys') && Inv(sys.st) && HoldersLive(sys.st)
    ensures HoldersLive(sys'.st) <==> !Outgrows(sys.st, a)
  {
    hide Enabled, NextState, NextCalls, Inv, HoldersLive, RegisterWorker;
    StepIsLawful(sys, a, sys');
    if a.DoRegisterWorker? {
      WorkerStep(sys, a);
      WorkerStepKeepsHoldersIff(sys.st, a.worker, a.boot, a.epoch);
    } else {
      OtherStepsKeepHolders(sys, a, sys');
    }
  }

  // ---------------------------------------------------------------------
  // Whole runs
  // ---------------------------------------------------------------------

  /** No holder of a REGISTERED registration registers again at a higher boot. */
  ghost predicate NeverOutgrown(r: Run) {
    |r.states| == |r.actions| + 1 && forall i :: 0 <= i < |r.actions| ==> !Outgrows(r.states[i].st, r.actions[i])
  }

  lemma {:induction false} HoldersLiveAt(r: Run, i: nat)
    requires IsRun(r) && Inv(r.states[0].st) && HoldersLive(r.states[0].st) && NeverOutgrown(r) && i < |r.states|
    ensures HoldersLive(r.states[i].st)
  {
    hide IsStep, Inv, HoldersLive, Outgrows;
    if i == 0 {
      // Base case: nothing to show.
    } else {
      HoldersLiveAt(r, i - 1);
      ReachesSound(r, i - 1);
      StepOf(r, i - 1);
      HoldersStayLiveIff(r.states[i - 1], r.actions[i - 1], r.states[i]);
    }
  }

  lemma NobodyHolds(s: State)
    requires Powerless(s)
    ensures HoldersLive(s)
  {
  }

  /** In a run in which no holder outgrows its boot, every REGISTERED registration has a live authority. */
  lemma RegisteredHolderIsLive(r: Run, i: nat, k: nat)
    requires IsLife(r) && NeverOutgrown(r) && i < |r.states|
    requires k in r.states[i].st.registrations && r.states[i].st.registrations[k].state.Registered?
    ensures Live(r.states[i].st, r.states[i].st.registrations[k].authority)
  {
    hide IsLife, IsRun, Lawful, Powerless, Inv, NeverOutgrown, Live;
    LifeIsLawful(r);
    SoundAt(StatesOf(r), 0);
    NobodyHolds(r.states[0].st);
    HoldersLiveAt(r, i);
  }

  /** In such a run, a direct plan is committed only on a registration whose authority is live. */
  lemma CommittedHolderIsLive(r: Run, i: nat, k: nat)
    requires IsLife(r) && NeverOutgrown(r) && i + 1 < |r.states|
    requires k !in r.states[i].st.plans && k in r.states[i + 1].st.plans && r.states[i + 1].st.plans[k].Direct()
    ensures
      var s := r.states[i + 1].st;
      var id := s.plans[k].registrationId;
      BoundTo(s.plans[k], s.registrations) && Live(s, s.registrations[id].authority)
  {
    hide IsLife, NeverOutgrown, Live, Current, UpToDate;
    CommittedPlanIsBound(r, i, k);
    RegisteredHolderIsLive(r, i + 1, r.states[i + 1].st.plans[k].registrationId);
  }

  /** In such a run, with fresh ids, a direct transfer begins only on the newest registration of its own pair,
      with a live authority. */
  lemma BegunHolderIsLive(r: Run, i: nat, k: nat)
    requires IsLife(r) && HasFreshIds(r) && NeverOutgrown(r) && i + 1 < |r.states|
    requires k !in r.states[i].st.attempts && k in r.states[i + 1].st.attempts
    ensures
      var s := r.states[i].st;
      var planId := r.states[i + 1].st.attempts[k].planId;
      planId in s.plans &&
      (s.plans[planId].Direct() ==>
         BoundTo(s.plans[planId], s.registrations) &&
         var reg := s.registrations[s.plans[planId].registrationId];
         Current(reg, s.registrations, s.buffers, s.endpoints, s.epoch, s.workers) && Live(s, reg.authority))
  {
    hide IsLife, HasFreshIds, NeverOutgrown, Live, Current, HeldAt;
    BegunOnOwnRegistration(r, i, k);
    var s, planId := r.states[i].st, r.states[i + 1].st.attempts[k].planId;
    if s.plans[planId].Direct() { RegisteredHolderIsLive(r, i, s.plans[planId].registrationId); }
  }

  // ---------------------------------------------------------------------
  // What each event stops
  // ---------------------------------------------------------------------

  /** The worker whose authority holds the plan's registration, if it is bound to one. */
  ghost predicate RestsOn(s: State, p: Plan, w: nat) {
    p.registrationId != 0 && p.registrationId in s.registrations &&
    s.registrations[p.registrationId].authority.worker == w
  }

  lemma RegistrationAfterDeath(s: State, w: nat, p: Plan)
    requires w != 0
    ensures RegistrationHolds(MarkWorkerDead(s, w), p) <==>
              RegistrationHolds(s, p) && s.registrations[p.registrationId].authority.worker != w
  {
  }

  /** A begin that is admitted now is admitted after a worker's death exactly when that worker neither asks for
      it nor holds the plan's registration. */
  lemma BeginAfterDeath(s: State, w: nat, planId: nat, caller: Authority, run: BackendRun)
    requires w != 0 && BeginTransfer(s, planId, caller, run).reply.Ok?
    ensures BeginTransfer(MarkWorkerDead(s, w), planId, caller, run).reply.Ok? <==>
              caller.worker != w && !RestsOn(s, s.plans[planId], w)
  {
    hide BeginTransfer, BeginRejection, MarkWorkerDead, RestsOn;
    BegunIff(s, planId, caller, run);
    BegunIff(MarkWorkerDead(s, w), planId, caller, run);
    DeathLeavesPlans(s, w);
    RejectionAfterDeath(s, w, s.plans[planId], caller);
  }

  lemma BegunIff(s: State, planId: nat, caller: Authority, run: BackendRun)
    ensures BeginTransfer(s, planId, caller, run).reply.Ok? <==>
              planId in s.plans && BeginRejection(s, s.plans[planId], caller).None?
  {
    hide LeavesGrants, LeavesWorkers, BeginRejection, NewAttempt;
  }

  lemma DeathLeavesPlans(s: State, w: nat)
    ensures MarkWorkerDead(s, w).plans == s.plans
  {
  }

  lemma RejectionAfterDeath(s: State, w: nat, p: Plan, caller: Authority)
    requires w != 0 && BeginRejection(s, p, caller).None?
    ensures BeginRejection(MarkWorkerDead(s, w), p, caller).None? <==> caller.worker != w && !RestsOn(s, p, w)
  {
    hide RegistrationHolds, MarkWorkerDead, Live;
    RegistrationAfterDeath(s, w, p);
    RegistrationIsThere(s, p);
    DeathFrame(s, w);
    LiveAfterDeath(s, w, caller);
  }

  lemma DeathFrame(s: State, w: nat)
    ensures
      var s' := MarkWorkerDead(s, w);
      s' == s.(workers := s'.workers, registrations := s'.registrations)
  {
    hide Revalidate;
  }

  lemma LiveAfterDeath(s: State, w: nat, a: Authority)
    requires w != 0
    ensures Live(MarkWorkerDead(s, w), a) <==> Live(s, a) && a.worker != w
  {
    hide Revalidate;
  }

  lemma RegistrationIsThere(s: State, p: Plan)
    ensures RegistrationHolds(s, p) ==> p.registrationId in s.registrations
  {
  }

  /** An attempt in flight that could complete now can complete after a worker's death, by anyone but that
      worker: completion asks only for the plan's authority, which a death does not touch. */
  lemma CompleteAfterDeath(s: State, w: nat, id: nat, caller: Authority)
    requires w != 0 && id in s.attempts && s.attempts[id].state.InFlight? && !s.attempts[id].completionCommitted
    requires CompleteTransfer(s, id, caller).reply.Ok?
    ensures CompleteTransfer(MarkWorkerDead(s, w), id, caller).reply.Ok? <==> caller.worker != w
  {
    hide LeavesGrants, LeavesWorkers, Revalidate;
  }

  /** A begin that is admitted now is admitted after a live worker has moved to a higher boot exactly when that
      worker does not ask for it: who holds the plan's registration makes no difference. */
  lemma BeginAfterReboot(s: State, w: nat, boot: nat, planId: nat, caller: Authority, run: BackendRun)
    requires Inv(s) && w in s.workers && s.workers[w] < boot && BeginTransfer(s, planId, caller, run).reply.Ok?
    ensures BeginTransfer(RegisterWorker(s, w, boot, s.epoch).state, planId, caller, run).reply.Ok? <==>
              caller.worker != w
  {
    hide Inv, LeavesGrants, LeavesWorkers, NewAttempt;
    LiveBootIsRecorded(s, w);
    var s' := RegisterWorker(s, w, boot, s.epoch).state;
    assert s' == s.(workers := s.workers[w := boot], maxBoot := s.maxBoot[w := boot]);
  }

  /** After a new epoch no plan made before can begin, and no attempt in flight can complete. */
  lemma NothingAfterEpoch(s: State, planId: nat, id: nat, caller: Authority, run: BackendRun)
    ensures BeginTransfer(AdvanceEpoch(s), planId, caller, run).reply.Err?
    ensures id in s.attempts && s.attempts[id].state.InFlight? && !s.attempts[id].completionCommitted ==>
              CompleteTransfer(AdvanceEpoch(s), id, caller).reply.Err?
  {
    hide LeavesGrants, LeavesWorkers, Revalidate, NewAttempt;
  }
}
