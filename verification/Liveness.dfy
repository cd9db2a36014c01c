/** Incarnations come once, and what a dead worker owned stays as it left it. */
module Liveness {
  import opened Types
  import opened PathPlanner
  import opened CoordinatorModel
  import opened Protocol
  import opened Invariants
  import opened Steps
  import opened TransferSteps
  import opened Runs
  import opened Lifetimes
  import opened Histories

  // ---------------------------------------------------------------------
  // One contiguous stretch of life
  // ---------------------------------------------------------------------

  /** An authority that is live at two moments of a run is live at every moment between, unless no boot above
      0 is on record for its worker at that moment. */
  lemma LiveStretchIsContiguous(r: Run, i: nat, m: nat, j: nat, a: Authority)
    requires IsLife(r) && i <= m <= j < |r.states|
    requires a.WorkerOwned() && a.worker in r.states[m].st.maxBoot ==> r.states[m].st.maxBoot[a.worker] >= 1
    requires Live(r.states[i].st, a) && Live(r.states[j].st, a)
    ensures Live(r.states[m].st, a)
  {
    hide IsLife, Lawful, Powerless, Inv;
    LifeIsLawful(r);
    var ss := StatesOf(r);
    EpochNeverFalls(ss, i, m);
    EpochNeverFalls(ss, m, j);
    if a.WorkerOwned() {
      SoundAt(ss, i);
      LiveIsSeen(ss[i], a);
      SeenStays(ss, i, m, a);
      if !Live(ss[m], a) {
        NeverLiveAgain(ss, m, j, a);
      }
    }
  }

  lemma {:induction false} SeenStays(ss: seq<State>, i: nat, j: nat, a: Authority)
    requires Lawful(ss) && i <= j < |ss| && Seen(a, ss[i].epoch, ss[i].maxBoot)
    ensures Seen(a, ss[j].epoch, ss[j].maxBoot)
  {
    hide Lawful, Inv, BuffersEvolve, EndpointsEvolve, PlansEvolve, PlansAreBound, LedgerEvolves;
    if i == j {
      // Base case: one state, nothing to show.
    } else {
      SeenStays(ss, i, j - 1, a);
      SoundAt(ss, j);
    }
  }

  /** A dead incarnation of this epoch can register again exactly when no boot above 0 was ever recorded
      for its worker: the first-time branch does not tell boot 0 from an unknown worker. */
  lemma DeadReturnsIffBootZero(s: State, a: Authority)
    requires Inv(s) && a.WorkerOwned() && Seen(a, s.epoch, s.maxBoot) && a.epoch == s.epoch && !Live(s, a)
    ensures Live(RegisterWorker(s, a.worker, a.boot, a.epoch).state, a) <==> s.maxBoot[a.worker] == 0
  {
    hide BuffersSound, EndpointsSound, DevicesSound, CapabilitiesSound, InventorySound;
    hide RegistrationsSound, RegisteredSound, PlansSound, LedgerSound;
  }

  function Stretch(epoch: nat): Run {
    var a0 := InitialState(epoch);
    var a1 := RegisterWorker(a0, 1, 0, epoch).state;
    var a2 := MarkWorkerDead(a1, 1);
    var a3 := RegisterWorker(a2, 1, 0, epoch).state;
    Run([System(a0, map[]), System(a1, map[]), System(a2, map[]), System(a3, map[])],
        [DoRegisterWorker(1, 0, epoch), DoMarkWorkerDead(1), DoRegisterWorker(1, 0, epoch)])
  }

  /** With boot 0 an incarnation does come back to life. */
  lemma BootZeroLivesTwice(epoch: nat)
    ensures
      var r := Stretch(epoch);
      var a := Authority(1, 0, epoch);
      && IsFreshRun(r)
      && Live(r.states[1].st, a) && !Live(r.states[2].st, a) && Live(r.states[3].st, a)
  {
    var r := Stretch(epoch);
    assert StepAt(r, 0) && StepAt(r, 1) && StepAt(r, 2);
  }

  // ---------------------------------------------------------------------
  // What a dead worker owned
  // ---------------------------------------------------------------------

  lemma {:induction false} FrozenSince(ss: seq<State>, i: nat, j: nat, k: nat)
    requires Lawful(ss) && i <= j < |ss| && k in ss[i].buffers
    requires
      var a := ss[i].buffers[k].authority;
      a.WorkerOwned() && !Live(ss[i], a) && (a.worker in ss[i].maxBoot ==> ss[i].maxBoot[a.worker] >= 1)
    ensures k in ss[j].buffers && ss[j].buffers[k] == ss[i].buffers[k]
  {
    hide Lawful, Inv, Live, WorkersEvolve, EndpointsEvolve, PlansEvolve, PlansAreBound, LedgerEvolves;
    if i == j {
      // Base case: one state, nothing to show.
    } else {
      FrozenSince(ss, i, j - 1, k);
      SoundAt(ss, i);
      OwnerIsSeen(ss[i], k);
      NeverLiveAgain(ss, i, j - 1, ss[i].buffers[k].authority);
      SoundAt(ss, j);
    }
  }

  /** No evidence of a state supports a direct path from a buffer whose owner is not live. */
  lemma DeadOwnerIsNotDirect(s: State, k: nat, req: Request, ev: Evidence)
    requires Inv(s) && k in s.buffers && s.buffers[k].authority.WorkerOwned() && !Live(s, s.buffers[k].authority)
    requires req.source == k && IsEvidence(s, req, ev)
    ensures !IsDirect(Decide(req, ev).eligibility)
  {
    hide Decide, Live, AuthorityLive, Lists;
    hide WorkersSound, EndpointsSound, DevicesSound, CapabilitiesSound;
    hide InventorySound, RegisteredSound, PlansSound, LedgerSound, Seen;
    DirectIffValid(req, ev);
    if DirectPathValid(req, ev) {
      var reg := RegistrationFor(ev).value;
      ListedIsFiled(s.registrations, ev.registrations, reg);
      LiveIffEvidenced(s, req, ev, reg.authority);
    }
  }

  lemma ListedIsFiled<T(!new)>(m: map<nat, T>, vs: seq<T>, v: T)
    requires Lists(m, vs)
    ensures v in vs <==> exists k :: k in m && m[k] == v
  {
    var ks: seq<nat> :| ListsBy(m, vs, ks);
    if v in vs {
      var i :| 0 <= i < |vs| && vs[i] == v;
      assert m[ks[i]] == v;
    }
    if k :| k in m && m[k] == v {
      var i :| 0 <= i < |ks| && ks[i] == k;
      assert vs[i] == v;
    }
  }

  /** The planner's test of an authority agrees with the coordinator's. */
  lemma LiveIffEvidenced(s: State, req: Request, ev: Evidence, a: Authority)
    requires IsEvidence(s, req, ev)
    ensures AuthorityLive(a, ev) <==> Live(s, a)
  {
    hide Lists;
    var incarnations := Incarnations(s.workers);
    ListedIsFiled(incarnations, ev.liveWorkers, (a.worker, a.boot));
    if a.worker in s.workers && s.workers[a.worker] == a.boot {
      assert incarnations[a.worker] == (a.worker, a.boot);
    }
  }

  /** Once the owner of a buffer stops being live, no step ever changes the buffer again, and from then
      on evaluation never answers with a direct path from it. */
  lemma DeadOwnerFreezesBuffer(r: Run, i: nat, j: nat, k: nat)
    requires IsLife(r) && i <= j < |r.states| && k in r.states[i].st.buffers
    requires
      var s := r.states[i].st;
      var a := s.buffers[k].authority;
      a.WorkerOwned() && !Live(s, a) && (a.worker in s.maxBoot ==> s.maxBoot[a.worker] >= 1)
    ensures k in r.states[j].st.buffers && r.states[j].st.buffers[k] == r.states[i].st.buffers[k]
    ensures !Live(r.states[j].st, r.states[i].st.buffers[k].authority)
    ensures forall req: Request, ev :: req.source == k && IsEvidence(r.states[j].st, req, ev) ==>
              !IsDirect(Decide(req, ev).eligibility)
  {
    hide IsLife, Lawful, Powerless, Live, Decide, IsEvidence, Inv;
    LifeIsLawful(r);
    var ss := StatesOf(r);
    SoundAt(ss, i);
    OwnerIsSeen(ss[i], k);
    FrozenSince(ss, i, j, k);
    NeverLiveAgain(ss, i, j, ss[i].buffers[k].authority);
    SoundAt(ss, j);
    forall req: Request, ev | req.source == k && IsEvidence(r.states[j].st, req, ev)
      ensures !IsDirect(Decide(req, ev).eligibility)
    {
      DeadOwnerIsNotDirect(ss[j], k, req, ev);
    }
  }
}
