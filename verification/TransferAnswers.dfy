/** When a transfer may begin, complete or be cancelled, and what it then leaves behind, written out in terms of
    the tables. */
module TransferAnswers {
  import opened Types
  import opened CoordinatorModel
  import opened Protocol
  import opened Invariants
  import opened TransferSteps
  import opened Runs
  import opened Histories
  import opened Lifetimes
  import opened Fencing

  // ---------------------------------------------------------------------
  // Beginning
  // ---------------------------------------------------------------------

  /** A worker may begin its own plans, and those of no worker, while it is here. */
  ghost predicate MayAsk(s: State, p: Plan, caller: Authority) {
    caller.worker != 0 ==> IsHere(s, caller) && (p.authority.worker == 0 || caller == p.authority)
  }

  /** The plan still describes its objects, and its registration, if it has one, is REGISTERED. */
  ghost predicate StillHolds(s: State, p: Plan) {
    && p.source in s.buffers && s.buffers[p.source].generation == p.sourceGeneration
    && p.destination in s.endpoints && s.endpoints[p.destination].generation == p.destinationGeneration
    && (p.registrationId != 0 ==>
          && p.registrationId in s.registrations && s.registrations[p.registrationId].state.Registered?
          && s.registrations[p.registrationId].generation == p.registrationGeneration)
  }

  ghost predicate Beginnable(s: State, planId: nat, caller: Authority) {
    && planId in s.plans && s.plans[planId].authoritative && s.plans[planId].epoch == s.epoch
    && MayAsk(s, s.plans[planId], caller) && |s.attempts| < s.limits.attempts && StillHolds(s, s.plans[planId])
  }

  ghost predicate BackendFailed(run: BackendRun) {
    run.RunError? || (run.Outcome? && run.state.TransferFailed?)
  }

  /** The attempt a begin leaves: in flight unless the backend failed, with what the backend reports. */
  ghost predicate IsBegun(s: State, p: Plan, caller: Authority, run: BackendRun, a: Attempt) {
    && a.id == s.nextId + 1 && a.planId == p.id && a.planGeneration == p.generation && a.epoch == s.epoch
    && a.authority == caller && !a.completionCommitted && a.submittedBytes == p.expectedBytes
    && a.state == (if BackendFailed(run) then TransferFailed else InFlight)
    && if run.Outcome? then
         && a.bytes == run.bytes && a.integrityChecked == run.integrityChecked
         && a.integrityPassed == run.integrityPassed && a.means == run.means
         && a.support == run.support && a.provenance == run.provenance
       else
         && a.bytes == 0 && !a.integrityChecked && !a.integrityPassed && a.means == []
         && a.support == p.support && a.provenance == p.provenance
  }

  lemma RejectedIff(s: State, p: Plan, caller: Authority)
    ensures BeginRejection(s, p, caller).None? <==>
              && p.authoritative && p.epoch == s.epoch && MayAsk(s, p, caller)
              && |s.attempts| < s.limits.attempts && StillHolds(s, p)
  {
  }

  /** A transfer begins exactly when its plan is filed, in force by flag and epoch, may be asked for by the caller,
      still holds, and there is room; then the attempt is filed and nothing else changes. */
  lemma BeginAnswer(s: State, planId: nat, caller: Authority, run: BackendRun)
    ensures
      var step := BeginTransfer(s, planId, caller, run);
      && (step.reply.Ok? <==> Beginnable(s, planId, caller))
      && (step.reply.Err? ==> step.state == s)
      && (step.reply.Ok? ==>
            && IsBegun(s, s.plans[planId], caller, run, step.reply.value)
            && step.state == s.(nextId := s.nextId + 1,
                                attempts := s.attempts[step.reply.value.id := step.reply.value]))
  {
    hide LeavesGrants, LeavesWorkers, BeginRejection, MayAsk, StillHolds;
    if planId in s.plans { RejectedIff(s, s.plans[planId], caller); }
  }

  /** Which objection is raised: the first in this order. */
  lemma BeginRefusal(s: State, planId: nat, caller: Authority, run: BackendRun)
    requires !Beginnable(s, planId, caller)
    ensures
      var code := BeginTransfer(s, planId, caller, run).reply.code;
      if planId !in s.plans then code == NotFound
      else
        var p := s.plans[planId];
        if !p.authoritative then code == StaleGeneration
        else if p.epoch != s.epoch then code == StaleEpoch
        else if !MayAsk(s, p, caller) then code == StaleBoot
        else if |s.attempts| >= s.limits.attempts then code == ResourceLimit
        else if p.source !in s.buffers || s.buffers[p.source].generation != p.sourceGeneration then
          code == StaleGeneration
        else if p.destination !in s.endpoints || s.endpoints[p.destination].generation != p.destinationGeneration then
          code == StaleEndpoint
        else code == RegistrationStaleError
  {
    hide LeavesGrants, LeavesWorkers, NewAttempt;
  }

  /** In every run, an attempt of a worker is on a plan of that same incarnation, or on one of no worker. */
  lemma AttemptsAreRightful(r: Run, i: nat, k: nat)
    requires IsLife(r) && i < |r.states| && k in r.states[i].st.attempts
    ensures
      var s := r.states[i].st;
      var a := s.attempts[k];
      && a.planId in s.plans
      && (a.authority.worker != 0 ==>
            s.plans[a.planId].authority.worker == 0 || a.authority == s.plans[a.planId].authority)
  {
    hide IsLife, Lawful, Powerless, Inv, ReceiptFor;
    LifeIsLawful(r);
    SoundAt(StatesOf(r), i);
    AttemptFacts(r.states[i].st, k);
  }

  // ---------------------------------------------------------------------
  // Completing
  // ---------------------------------------------------------------------

  /** A worker may settle only its own attempts, and only while it is here. */
  ghost predicate MaySettleIt(s: State, a: Attempt, caller: Authority) {
    caller.worker != 0 ==> IsHere(s, caller) && caller == a.authority
  }

  ghost predicate IsOpen(s: State, id: nat) {
    id in s.attempts && s.attempts[id].state.InFlight? && !s.attempts[id].completionCommitted
  }

  /** The plan of the attempt still has its authority. */
  ghost predicate PlanStands(s: State, a: Attempt) { a.planId in s.plans && s.plans[a.planId].authoritative }

  /** All bytes arrived, or none were expected. */
  ghost predicate Arrived(a: Attempt) { a.submittedBytes == 0 || a.bytes == a.submittedBytes }

  ghost predicate Corrupt(a: Attempt) { a.integrityChecked && !a.integrityPassed }

  /** The attempt ends in this state, committed, with a receipt that says so. */
  ghost predicate SettledAs(s: State, s': State, id: nat, state: TransferState, verified: bool)
    requires id in s.attempts
  {
    var a := s.attempts[id];
    && s'.attempts == s.attempts[id := a.(state := state, completionCommitted := true)]
    && s'.receipts == s.receipts[id := Receipt(a.id, a.planGeneration, state, a.bytes, verified, a.support,
                                               a.provenance, a.means, a.epoch)]
  }

  /** One verification of the attempt's bytes is filed under the next id. */
  ghost predicate Files(s: State, s': State, a: Attempt, passed: bool) {
    && s'.nextId == s.nextId + 1
    && s'.verifications == s.verifications[s.nextId + 1 := Verification(s.nextId + 1, a.id, passed, a.bytes, a.support,
                                                                        a.means)]
  }

  ghost predicate FilesNone(s: State, s': State) { s'.nextId == s.nextId && s'.verifications == s.verifications }

  ghost predicate TouchesOnlyLedger(s: State, s': State) {
    s' == s.(nextId := s'.nextId, attempts := s'.attempts, receipts := s'.receipts, verifications := s'.verifications)
  }

  lemma ConclusionOfCorrupt(s: State, id: nat, a: Attempt)
    requires id in s.attempts && a == s.attempts[id] && Corrupt(a)
    ensures
      var step := Conclude(s, id, a);
      && step.reply == Err(IntegrityFailure) && SettledAs(s, step.state, id, TransferFailed, false)
      && Files(s, step.state, a, false) && TouchesOnlyLedger(s, step.state)
  {
    hide LeavesGrants, LeavesWorkers;
  }

  lemma ConclusionOfArrived(s: State, id: nat, a: Attempt)
    requires id in s.attempts && a == s.attempts[id] && !Corrupt(a) && Arrived(a)
    ensures
      var step := Conclude(s, id, a);
      && step.reply.Ok? && step.reply.value.state.Completed? && step.reply.value.integrityVerified == a.integrityChecked
      && SettledAs(s, step.state, id, Completed, a.integrityChecked) && step.state.receipts[id] == step.reply.value
      && (if a.integrityChecked then Files(s, step.state, a, true) else FilesNone(s, step.state))
      && TouchesOnlyLedger(s, step.state)
  {
    hide LeavesGrants, LeavesWorkers;
  }

  lemma ConclusionOfShort(s: State, id: nat, a: Attempt)
    requires id in s.attempts && a == s.attempts[id] && !Corrupt(a) && !Arrived(a)
    ensures
      var step := Conclude(s, id, a);
      && step.reply.Ok? && step.reply.value.state.TransferFailed?
      && SettledAs(s, step.state, id, TransferFailed, a.integrityChecked)
      && step.state.receipts[id] == step.reply.value && FilesNone(s, step.state) && TouchesOnlyLedger(s, step.state)
  {
    hide LeavesGrants, LeavesWorkers;
  }

  lemma OpenCompletion(s: State, id: nat, caller: Authority)
    requires IsOpen(s, id)
    ensures
      var a := s.attempts[id];
      CompleteTransfer(s, id, caller) ==
        if !MaySettleIt(s, a, caller) then Step(s, Err(StaleBoot))
        else if !PlanStands(s, a) then Step(s, Err(StaleGeneration))
        else Conclude(s, id, a)
  {
    hide LeavesGrants, LeavesWorkers, Conclude;
  }

  /** The completion of an attempt in flight. It answers with a COMPLETED receipt exactly when the caller may settle
      it, its plan stands, it is not corrupt and all bytes arrived; with an integrity failure exactly when it is
      corrupt instead; with a FAILED receipt exactly when bytes are missing. A passed verification is filed exactly
      when it completed and was checked, a failed one exactly when it is corrupt. */
  lemma CompletionAnswer(s: State, id: nat, caller: Authority)
    requires IsOpen(s, id)
    ensures
      var a := s.attempts[id];
      var step := CompleteTransfer(s, id, caller);
      var s' := step.state;
      var admitted := MaySettleIt(s, a, caller) && PlanStands(s, a);
      var receipted := step.reply.Ok? && id in s'.receipts && step.reply.value == s'.receipts[id];
      && (step.reply.Ok? && step.reply.value.state.Completed? <==> admitted && !Corrupt(a) && Arrived(a))
      && (step.reply == Err(IntegrityFailure) <==> admitted && Corrupt(a))
      && (step.reply.Ok? && step.reply.value.state.TransferFailed? <==> admitted && !Corrupt(a) && !Arrived(a))
      && (step.reply == Err(StaleBoot) <==> !MaySettleIt(s, a, caller))
      && (step.reply == Err(StaleGeneration) <==> MaySettleIt(s, a, caller) && !PlanStands(s, a))
      && (step.reply.Ok? ==> receipted) && (!admitted ==> s' == s) && TouchesOnlyLedger(s, s')
      && (admitted ==>
            && SettledAs(s, s', id, if !Corrupt(a) && Arrived(a) then Completed else TransferFailed,
                         !Corrupt(a) && a.integrityChecked)
            && if Corrupt(a) then Files(s, s', a, false)
               else if Arrived(a) && a.integrityChecked then Files(s, s', a, true)
               else FilesNone(s, s'))
  {
    hide CompleteTransfer, Conclude, SettledAs, Files, FilesNone, MaySettleIt, PlanStands, Corrupt, Arrived;
    var a := s.attempts[id];
    OpenCompletion(s, id, caller);
    if MaySettleIt(s, a, caller) && PlanStands(s, a) {
      if Corrupt(a) {
        ConclusionOfCorrupt(s, id, a);
      } else if Arrived(a) {
        ConclusionOfArrived(s, id, a);
      } else {
        ConclusionOfShort(s, id, a);
      }
      SettledHasReceipt(s, CompleteTransfer(s, id, caller).state, id);
    }
  }

  lemma SettledHasReceipt(s: State, s': State, id: nat)
    ensures
      id in s.attempts && (exists state, verified :: SettledAs(s, s', id, state, verified)) ==> id in s'.receipts
  {
  }

  /** The completion of anything else: of an unknown attempt, a refusal; once committed, its receipt again; cancelled,
      a refusal; failed, a FAILED receipt, filed once. No caller is asked for anything. */
  lemma LateCompletionAnswer(s: State, id: nat, caller: Authority)
    requires Inv(s) && !IsOpen(s, id)
    ensures
      var step := CompleteTransfer(s, id, caller);
      if id !in s.attempts then step == Step(s, Err(NotFound))
      else
        var a := s.attempts[id];
        if a.completionCommitted then id in s.receipts && step == Step(s, Ok(s.receipts[id]))
        else if a.state.Cancelled? then step == Step(s, Err(CancelledError))
        else
          && step.reply.Ok? && step.reply.value.state.TransferFailed? && step.reply.value.bytes == a.bytes
          && (if id in s.receipts then step.reply.value == s.receipts[id]
              else step.reply.value == Receipt(a.id, a.planGeneration, TransferFailed, a.bytes, false, a.support,
                                               a.provenance, a.means, a.epoch))
          && step.state == s.(receipts := s.receipts[id := step.reply.value])
  {
    hide Inv, LeavesGrants, LeavesWorkers, Conclude, MaySettle;
    if id in s.attempts { AttemptFacts(s, id); }
    if id in s.receipts { assert s.receipts[id := s.receipts[id]] == s.receipts; }
  }

  // ---------------------------------------------------------------------
  // Cancelling and verifying
  // ---------------------------------------------------------------------

  /** A transfer is cancelled exactly when its completion is not committed and the caller may settle it; an attempt
      in flight and one that failed alike. */
  lemma CancelAnswer(s: State, id: nat, caller: Authority)
    requires Inv(s)
    ensures
      var step := CancelTransfer(s, id, caller);
      && (step.reply.Ok? <==>
            id in s.attempts && !s.attempts[id].completionCommitted && MaySettleIt(s, s.attempts[id], caller))
      && (step.reply.Err? ==> step.state == s)
      && (step.reply == Err(NotFound) <==> id !in s.attempts)
      && (step.reply == Err(CancelledError) <==> id in s.attempts && s.attempts[id].completionCommitted)
      && (step.reply.Ok? ==>
            var a := s.attempts[id];
            && step.reply.value == Receipt(a.id, a.planGeneration, Cancelled, a.bytes, false, a.support, a.provenance,
                                           a.means, a.epoch)
            && step.state == s.(attempts := s.attempts[id := a.(state := Cancelled)],
                                receipts := s.receipts[id := step.reply.value]))
  {
    hide Inv, LeavesGrants, LeavesWorkers;
    if id in s.attempts { AttemptFacts(s, id); }
  }

  /** Any known attempt gets the verification it is given, under the next id. */
  lemma VerifyAnswer(s: State, id: nat, passed: bool, bytesChecked: nat)
    ensures
      var step := VerifyTransfer(s, id, passed, bytesChecked);
      && (step.reply.Ok? <==> id in s.attempts)
      && (step.reply.Err? ==> step == Step(s, Err(NotFound)))
      && (step.reply.Ok? ==>
            && step.reply.value.id == s.nextId + 1 && step.reply.value.attemptId == s.attempts[id].id
            && step.reply.value.passed == passed && step.reply.value.bytesChecked == bytesChecked
            && step.reply.value.support == s.attempts[id].support
            && (s.attempts[id].means != [] ==> step.reply.value.means == s.attempts[id].means)
            && step.state == s.(nextId := s.nextId + 1,
                                verifications := s.verifications[s.nextId + 1 := step.reply.value]))
  {
    hide LeavesGrants, LeavesWorkers;
  }
}
