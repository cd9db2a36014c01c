/** The record of attempts, receipts and verifications over whole runs. */
module Ledger {
  import opened CoordinatorModel
  import opened Protocol
  import opened Invariants
  import opened TransferSteps
  import opened Runs
  import opened Lifetimes
  import opened Histories

  /** Every receipt restates its attempt; a COMPLETED one moved exactly the bytes its plan expects, unless
      that was 0; one that claims integrity comes from a checked and passed attempt and, if COMPLETED, is
      backed by a passed verification of the same byte count. */
  lemma ReceiptsAreHonest(r: Run, i: nat, k: nat)
    requires IsLife(r) && i < |r.states| && k in r.states[i].st.receipts
    ensures
      var s := r.states[i].st;
      k in s.attempts &&
      var a, receipt := s.attempts[k], s.receipts[k];
      && receipt.attemptId == k && receipt.state == a.state && receipt.bytes == a.bytes && receipt.epoch == a.epoch
      && !receipt.state.InFlight?
      && (receipt.state.Completed? ==>
            && a.planId in s.plans && a.completionCommitted
            && (receipt.bytes == s.plans[a.planId].expectedBytes || s.plans[a.planId].expectedBytes == 0))
      && (receipt.integrityVerified ==> a.integrityChecked && a.integrityPassed)
      && (receipt.state.Completed? && receipt.integrityVerified ==> HasVerification(k, receipt, s.verifications))
      && (receipt.state.Completed? && a.integrityChecked ==> receipt.integrityVerified)
  {
    hide IsLife, Lawful, Inv, AttemptSound, HasVerification;
    LifeIsLawful(r);
    ReceiptFacts(StatesOf(r), i, k);
    SoundAt(StatesOf(r), i);
    AttemptFacts(r.states[i].st, k);
    ReceiptMatches(r.states[i].st, k);
  }

  lemma ReceiptFacts(ss: seq<State>, i: nat, k: nat)
    requires Lawful(ss) && i < |ss| && k in ss[i].receipts
    ensures k in ss[i].attempts
    ensures ss[i].receipts[k].state.Completed? && ss[i].receipts[k].integrityVerified ==>
              HasVerification(k, ss[i].receipts[k], ss[i].verifications)
  {
    hide Lawful, Evolves, WorkersSound, BuffersSound, EndpointsSound, DevicesSound, CapabilitiesSound, InventorySound;
    hide RegistrationsSound, RegisteredSound, PlansSound, AttemptSound, HasVerification;
    SoundAt(ss, i);
  }

  lemma ReceiptMatches(s: State, k: nat)
    requires k in s.receipts && k in s.attempts && AttemptSound(k, s.attempts[k], s.plans, s.receipts)
    ensures
      var a, receipt := s.attempts[k], s.receipts[k];
      && receipt.attemptId == k && receipt.state == a.state && receipt.bytes == a.bytes && receipt.epoch == a.epoch
      && !receipt.state.InFlight?
      && (receipt.state.Completed? ==>
            && a.planId in s.plans && a.completionCommitted
            && (receipt.bytes == s.plans[a.planId].expectedBytes || s.plans[a.planId].expectedBytes == 0))
      && (receipt.integrityVerified ==> a.integrityChecked && a.integrityPassed)
      && (receipt.state.Completed? && a.integrityChecked ==> receipt.integrityVerified)
  {
  }

  /** COMPLETED and CANCELLED are final, so no attempt is ever both; once its completion is committed,
      neither the attempt nor its receipt changes again. */
  lemma SettlementIsFinal(r: Run, i: nat, j: nat, k: nat)
    requires IsLife(r) && i <= j < |r.states| && k in r.states[i].st.attempts
    ensures
      var s, s' := r.states[i].st, r.states[j].st;
      k in s'.attempts &&
      var a, a' := s.attempts[k], s'.attempts[k];
      && (a.state.Completed? ==> a'.state.Completed?)
      && (a.state.Cancelled? ==> a'.state.Cancelled?)
      && (a.completionCommitted ==> a' == a && k in s.receipts && k in s'.receipts && s'.receipts[k] == s.receipts[k])
      && (k in s.receipts ==> k in s'.receipts)
  {
    hide IsLife, Lawful;
    LifeIsLawful(r);
    SettledSince(StatesOf(r), i, j, k);
  }

  lemma {:induction false} SettledSince(ss: seq<State>, i: nat, j: nat, k: nat)
    requires Lawful(ss) && i <= j < |ss| && k in ss[i].attempts
    ensures k in ss[j].attempts
    ensures ss[i].attempts[k].state.Completed? ==> ss[j].attempts[k].state.Completed?
    ensures ss[i].attempts[k].state.Cancelled? ==> ss[j].attempts[k].state.Cancelled?
    ensures ss[i].attempts[k].completionCommitted ==>
              ss[j].attempts[k] == ss[i].attempts[k] && k in ss[i].receipts && k in ss[j].receipts &&
              ss[j].receipts[k] == ss[i].receipts[k]
    ensures k in ss[i].receipts ==> k in ss[j].receipts
  {
    hide Lawful, Inv, WorkersEvolve, BuffersEvolve, EndpointsEvolve, PlansEvolve, PlansAreBound, MayBegin;
    SoundAt(ss, i);
    AttemptFacts(ss[i], k);
    if i == j {
      // Base case: one state, nothing to show.
    } else {
      SettledSince(ss, i, j - 1, k);
      SoundAt(ss, j);
    }
  }
}
