/** Running on after a recovery: everything that carries authority was made since. */
module Restart {
  import opened Bits
  import opened Types
  import opened PathPlanner
  import opened Tables
  import opened Records
  import opened CoordinatorModel
  import opened Protocol
  import opened Invariants
  import opened Grants
  import opened Runs
  import opened Origins
  import opened Lifetimes
  import opened Histories
  import opened Liveness
  import opened StateFile
  import opened Recovery

  // ---------------------------------------------------------------------
  // Running on after any recovery
  // ---------------------------------------------------------------------

  /** A run that starts from whatever recovery made of a file. */
  ghost predicate IsRecoveredRun(r: Run, file: seq<Byte>) {
    IsRun(r) && Recover(file).Ok? && r.states[0] == System(Recover(file).value, map[])
  }

  /** After any recovery, `begin` admits only plans committed since. */
  lemma BegunPlanIsNew(r: Run, file: seq<Byte>, i: nat, planId: nat, caller: Authority, run: BackendRun)
    returns (j: nat)
    requires IsRecoveredRun(r, file) && i < |r.states|
    requires BeginTransfer(r.states[i].st, planId, caller, run).reply.Ok?
    ensures j < i && planId in r.states[i].st.plans && Commits(r.states[j], r.actions[j], r.states[i].st.plans[planId])
  {
    hide IsRun, Recover, Commits, NewAttempt, Live;
    RecoveredIsPowerless(file);
    j := PlanWasMade(r, i, planId);
  }

  /** After any recovery, evaluation answers with a direct path only on a registration made since. */
  lemma DirectPathIsNew(r: Run, file: seq<Byte>, i: nat, req: Request, ev: Evidence) returns (j: nat)
    requires IsRecoveredRun(r, file) && i < |r.states| && IsEvidence(r.states[i].st, req, ev)
    requires IsDirect(Decide(req, ev).eligibility)
    ensures j < i && RegistrationFor(ev).Some? && Registers(r.states[j], r.actions[j], RegistrationFor(ev).value)
  {
    hide IsRun, Recover, Registers, Decide, Lists, NewestRegistration, AuthorityLive;
    RecoveredIsPowerless(file);
    DirectIffValid(req, ev);
    var reg := RegistrationFor(ev).value;
    ListedIsFiled(r.states[i].st.registrations, ev.registrations, reg);
    var k :| k in r.states[i].st.registrations && r.states[i].st.registrations[k] == reg;
    j := RegistrationWasMade(r, i, k);
  }

  // ---------------------------------------------------------------------
  // Restarting a coordinator
  // ---------------------------------------------------------------------

  /** The plan tables of a running coordinator that survive: none, one direct plan, or two plans of which
      the older is a staged one. */
  ghost predicate PlansSurvive(s: State) {
    || |s.plans| == 0
    || (|s.plans| == 1 && forall k :: k in s.plans ==> s.plans[k].Direct())
    || (|s.plans| == 2 && forall k, j :: k in s.plans && j in s.plans && k < j ==> !s.plans[k].Direct())
  }

  /** The rows of the plan table are those of the plans in ascending order of id, with their copy counts. */
  lemma PlanRows(s: State, i: nat)
    requires i < |s.plans|
    ensures
      var ks := SortedKeys(s.plans.Keys);
      |RowsOf(PlanTable(s))| == |ks| == |s.plans| && ks[i] in s.plans &&
      CopyCount(RowsOf(PlanTable(s))[i]) == s.plans[ks[i]].copyCount
  {
    hide PlanRow, SortedKeys;
    var t := PlanTable(s);
    assert t.Keys == s.plans.Keys;
    var ks := SortedKeys(s.plans.Keys);
    assert ks[i] in ks;
    assert RowsOf(t)[i] == PlanRow(s.plans[ks[i]]);
    PlanRowCount(s.plans[ks[i]]);
  }

  lemma PlanRowCount(p: Plan)
    ensures CopyCount(PlanRow(p)) == p.copyCount
  {
    hide PlanRow, CopyCount;
    PlanNumbersReadBack(p);
  }

  lemma ReadableIffSurvives(s: State)
    requires forall k :: k in s.plans ==> s.plans[k].copyCount == (if s.plans[k].Direct() then 1 else 2)
    ensures PlansReadable(RowsOf(PlanTable(s))) <==> PlansSurvive(s)
  {
    hide CopyCount, RowsOf, SortedKeys, PlanTable;
    var n, ks, rows := |s.plans|, SortedKeys(s.plans.Keys), RowsOf(PlanTable(s));
    if n == 0 { NoRows(s); }
    forall i | 0 <= i < n
      ensures |rows| == |ks| == n && ks[i] in s.plans && CopyCount(rows[i]) == s.plans[ks[i]].copyCount
    {
      PlanRows(s, i);
    }
    if n == 1 {
      assert ks == [ks[0]];
      assert forall k :: k in s.plans <==> k in ks;
    } else if n == 2 {
      assert ks == [ks[0], ks[1]] && ks[0] < ks[1];
      assert forall k :: k in s.plans <==> k in ks;
    } else if n > 2 {
      assert CopyCount(rows[1]) <= 2;
    }
  }

  lemma NoRows(s: State)
    requires |s.plans| == 0
    ensures RowsOf(PlanTable(s)) == []
  {
    assert s.plans == map[];
  }

  lemma SoundCopyCounts(s: State)
    requires Inv(s)
    ensures forall k :: k in s.plans ==> s.plans[k].copyCount == (if s.plans[k].Direct() then 1 else 2)
  {
    hide WorkersSound, BuffersSound, EndpointsSound, DevicesSound, CapabilitiesSound, InventorySound;
    hide RegistrationsSound;
    hide RegisteredSound, LedgerSound, UpToDate;
    forall k | k in s.plans ensures s.plans[k].copyCount == (if s.plans[k].Direct() then 1 else 2) {
      assert PlanSound(s.plans[k], s.buffers, s.endpoints, s.epoch);
    }
  }

  /** A running coordinator's state, persisted within the limits of the format, is recovered exactly as
      what is durable of it, if and only if its plan table is one of those that survive. */
  lemma RestartRestores(r: Run, i: nat)
    requires IsLife(r) && i < |r.states|
    ensures WellFiled(r.states[i].st)
    ensures
      var s := r.states[i].st;
      WithinLimits(s) ==> (Recover(Persist(s)) == Ok(Durable(s)) <==> PlansSurvive(s))
  {
    hide IsLife, Lawful, Inv, WellFiled, WithinLimits, Recover, Persist, Durable, PlansSurvive, PlansReadable, RowsOf;
    LifeIsLawful(r);
    SoundAt(StatesOf(r), i);
    var s := r.states[i].st;
    SoundIsWellFiled(s);
    SoundCopyCounts(s);
    ReadableIffSurvives(s);
    if WithinLimits(s) { RecoverOfPersist(s); }
  }

  // ---------------------------------------------------------------------
  // A restart keeps the epoch and forgets the boots
  // ---------------------------------------------------------------------

  lemma RestartKeepsEpoch(s: State, s': State)
    requires Inv(s) && Restarts(s, s')
    ensures s'.epoch == s.epoch && Powerless(s')
  {
    hide Inv, Restarts, Powerless, Mapped, Rekeyed, SurvivingPlans, WellFiled;
    SoundIsWellFiled(s);
    RestartIsDurable(s, s');
    RestartIsSound(s, s');
  }

  /** Right after a restart, any incarnation that was ever seen, dead or not, can register again exactly if it is
      of the epoch that was current; once the epoch has advanced after the restart, none can. */
  lemma SeenReturnsIffEpochKept(s: State, s': State, a: Authority)
    requires Inv(s) && Restarts(s, s') && a.WorkerOwned() && Seen(a, s.epoch, s.maxBoot)
    ensures Live(RegisterWorker(s', a.worker, a.boot, a.epoch).state, a) <==> a.epoch == s.epoch
    ensures !Live(RegisterWorker(AdvanceEpoch(s'), a.worker, a.boot, a.epoch).state, a)
  {
    hide Inv, Restarts, LeavesGrants, Revalidate, Supersede;
    RestartKeepsEpoch(s, s');
  }

  /** In no later state of a run does an incarnation of an earlier epoch live. */
  lemma OldEpochNeverLives(r: Run, i: nat, j: nat, a: Authority)
    requires IsLife(r) && i <= j < |r.states| && a.epoch < r.states[i].st.epoch
    ensures !Live(r.states[j].st, a)
  {
    hide IsLife, Lawful, Powerless;
    LifeIsLawful(r);
    EpochNeverFalls(StatesOf(r), i, j);
  }
}
