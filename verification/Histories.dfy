/** What the laws give over a whole history: chains of lawful states, from one index to a later one. */
module Histories {
  import opened Types
  import opened CoordinatorModel
  import opened Invariants
  import opened Grants
  import opened Runs

  lemma SoundAt(ss: seq<State>, i: nat)
    requires Lawful(ss) && i < |ss|
    ensures Inv(ss[i])
    ensures i > 0 ==> Evolves(ss[i - 1], ss[i])
  {
    hide Inv, Evolves;
  }

  // ---------------------------------------------------------------------
  // Plans
  // ---------------------------------------------------------------------

  /** A plan is only ever changed by losing its authority. */
  lemma {:induction false} PlanStays(ss: seq<State>, i: nat, j: nat, k: nat)
    requires Lawful(ss) && i <= j < |ss| && k in ss[i].plans
    ensures k in ss[j].plans
    ensures ss[j].plans[k] == ss[i].plans[k].(authoritative := ss[j].plans[k].authoritative)
    ensures ss[j].plans[k].authoritative ==> ss[j].plans[k] == ss[i].plans[k]
  {
    hide Lawful, Inv, WorkersEvolve, BuffersEvolve, EndpointsEvolve, PlansAreBound, LedgerEvolves;
    if i == j {
      // Base case: one state, nothing to show.
    } else {
      PlanStays(ss, i, j - 1, k);
      SoundAt(ss, j);
    }
  }

  /** A plan that was not there at the start was committed by some step. */
  lemma {:induction false} PlanWasCommitted(ss: seq<State>, j: nat, k: nat) returns (i: nat)
    requires j < |ss| && k in ss[j].plans && k !in ss[0].plans
    ensures i < j && k !in ss[i].plans && k in ss[i + 1].plans
    decreases j
  {
    if k in ss[j - 1].plans { i := PlanWasCommitted(ss, j - 1, k); } else { i := j - 1; }
  }

  lemma PlanFacts(ss: seq<State>, i: nat, k: nat)
    requires Lawful(ss) && i < |ss| && k in ss[i].plans
    ensures PlanSound(ss[i].plans[k], ss[i].buffers, ss[i].endpoints, ss[i].epoch)
  {
    hide Lawful, Evolves, WorkersSound, BuffersSound, EndpointsSound, DevicesSound, CapabilitiesSound, InventorySound;
    hide RegistrationsSound, RegisteredSound, LedgerSound, PlanSound;
    SoundAt(ss, i);
  }

  /** What is no longer in force stays so. */
  lemma StaysLapsed(s: State, s': State, p: Plan)
    requires PlanSound(p, s.buffers, s.endpoints, s.epoch) && !InForce(p, s.buffers, s.endpoints, s.epoch)
    requires WorkersEvolve(s, s') && BuffersEvolve(s, s') && EndpointsEvolve(s, s')
    ensures !InForce(p, s'.buffers, s'.endpoints, s'.epoch)
  {
  }

  lemma PlanStep(s: State, s': State, k: nat)
    requires Evolves(s, s') && k in s'.plans && !s'.plans[k].authoritative
    ensures k in s.plans
    ensures s.plans[k].authoritative ==> !InForce(s'.plans[k], s'.buffers, s'.endpoints, s'.epoch)
    ensures !s.plans[k].authoritative ==> s'.plans[k] == s.plans[k]
  {
    hide WorkersEvolve, BuffersEvolve, EndpointsEvolve, LedgerEvolves, BoundTo;
  }

  /** A plan that was not there at the start and has no authority is not in force. */
  lemma {:induction false} LapsedFairly(ss: seq<State>, i: nat, k: nat)
    requires Lawful(ss) && i < |ss| && k in ss[i].plans && k !in ss[0].plans && !ss[i].plans[k].authoritative
    ensures !InForce(ss[i].plans[k], ss[i].buffers, ss[i].endpoints, ss[i].epoch)
  {
    hide Lawful, Inv, WorkersEvolve, BuffersEvolve, EndpointsEvolve, PlansEvolve, PlansAreBound, LedgerEvolves;
    hide InForce, PlanSound;
    if i == 0 {
      // Base case: nothing to show.
    } else {
      SoundAt(ss, i);
      PlanStep(ss[i - 1], ss[i], k);
      if !ss[i - 1].plans[k].authoritative {
        LapsedFairly(ss, i - 1, k);
        PlanFacts(ss, i - 1, k);
        StaysLapsed(ss[i - 1], ss[i], ss[i].plans[k]);
      }
    }
  }

  // ---------------------------------------------------------------------
  // Registrations
  // ---------------------------------------------------------------------

  /** With fresh ids, a registration that is REGISTERED now has been so, unchanged, ever since it existed. */
  lemma {:induction false} RegisteredSince(ss: seq<State>, i: nat, j: nat, k: nat)
    requires Aging(ss) && i <= j < |ss| && k in ss[i].registrations
    ensures k in ss[j].registrations
    ensures ss[j].registrations[k].state.Registered? ==> ss[i].registrations[k] == ss[j].registrations[k]
  {
    if i == j {
      // Base case: one state, nothing to show.
    } else {
      RegisteredSince(ss, i, j - 1, k);
      assert RegistrationsAge(ss[j - 1].registrations, ss[j].registrations);
    }
  }

  // ---------------------------------------------------------------------
  // Attempts
  // ---------------------------------------------------------------------

  lemma AttemptBegunOrKept(ss: seq<State>, j: nat, k: nat)
    requires Lawful(ss) && 0 < j < |ss| && k in ss[j].attempts
    ensures
      var planId := ss[j].attempts[k].planId;
      if k in ss[j - 1].attempts then ss[j - 1].attempts[k].planId == planId
      else planId in ss[j - 1].plans && MayBegin(ss[j - 1], ss[j - 1].plans[planId])
  {
    hide Lawful, Inv, WorkersEvolve, BuffersEvolve, EndpointsEvolve, PlansEvolve, PlansAreBound, MayBegin;
    SoundAt(ss, j);
  }

  /** An attempt that was not there at the start was begun by some step, with everything in order. */
  lemma {:induction false} AttemptWasBegun(ss: seq<State>, j: nat, k: nat) returns (b: nat)
    requires Lawful(ss) && j < |ss| && k in ss[j].attempts && k !in ss[0].attempts
    ensures b < j && k !in ss[b].attempts && k in ss[b + 1].attempts
    ensures ss[b + 1].attempts[k].planId == ss[j].attempts[k].planId
    ensures ss[j].attempts[k].planId in ss[b].plans && MayBegin(ss[b], ss[b].plans[ss[j].attempts[k].planId])
    decreases j
  {
    hide Lawful, MayBegin;
    AttemptBegunOrKept(ss, j, k);
    if k in ss[j - 1].attempts { b := AttemptWasBegun(ss, j - 1, k); } else { b := j - 1; }
  }

  // ---------------------------------------------------------------------
  // Authorities
  // ---------------------------------------------------------------------

  /** The authority has been seen, is not live, and its worker has a positive boot on record. */
  ghost predicate Departed(s: State, a: Authority) {
    a.WorkerOwned() && Seen(a, s.epoch, s.maxBoot) && s.maxBoot[a.worker] >= 1 && !Live(s, a)
  }

  /** One step cannot bring back a departed authority. */
  lemma StaysDead(s: State, s': State, a: Authority)
    requires WorkersSound(s.workers, s.maxBoot) && WorkersEvolve(s, s') && Departed(s, a)
    ensures Departed(s', a)
  {
  }

  lemma {:induction false} NeverLiveAgain(ss: seq<State>, i: nat, j: nat, a: Authority)
    requires Lawful(ss) && i <= j < |ss| && Departed(ss[i], a)
    ensures Departed(ss[j], a)
  {
    hide Lawful, WorkersSound, BuffersSound, EndpointsSound, DevicesSound, CapabilitiesSound, InventorySound;
    hide RegistrationsSound, RegisteredSound, PlansSound, LedgerSound, Departed;
    hide WorkersEvolve, BuffersEvolve, EndpointsEvolve, PlansEvolve, PlansAreBound, LedgerEvolves;
    if i == j {
      // Base case: one state, nothing to show.
    } else {
      NeverLiveAgain(ss, i, j - 1, a);
      SoundAt(ss, j);
      SoundAt(ss, j - 1);
      StaysDead(ss[j - 1], ss[j], a);
    }
  }

  lemma {:induction false} EpochNeverFalls(ss: seq<State>, i: nat, j: nat)
    requires Lawful(ss) && i <= j < |ss|
    ensures ss[i].epoch <= ss[j].epoch
  {
    hide Lawful, Inv, BuffersEvolve, EndpointsEvolve, PlansEvolve, PlansAreBound, LedgerEvolves;
    if i == j {
      // Base case: one state, nothing to show.
    } else {
      EpochNeverFalls(ss, i, j - 1);
      SoundAt(ss, j);
    }
  }
}
