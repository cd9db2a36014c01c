/** The life of a coordinator: a run, and after each restart another run from what recovery made of a
    state file written in the run before. */
module Lifetimes {
  import opened Bits
  import opened Types
  import opened Fields
  import opened Tables
  import opened Records
  import opened CoordinatorModel
  import opened Protocol
  import opened Invariants
  import opened Runs
  import opened StateFile
  import opened Recovery

  // ---------------------------------------------------------------------
  // No byte string restores authority
  // ---------------------------------------------------------------------

  /** No worker is live, no registration is REGISTERED, no plan is authoritative, no transfer is known. */
  ghost predicate Powerless(s: State) {
    && s.workers == map[] && s.maxBoot == map[]
    && (forall k :: k in s.registrations ==> !s.registrations[k].state.Registered?)
    && (forall k :: k in s.plans ==> !s.plans[k].authoritative)
    && s.attempts == map[] && s.receipts == map[] && s.verifications == map[]
  }

  lemma RestoredIsPowerless(header: Row, ts: seq<Table>, plans: Table)
    requires |ts| == 8
    ensures Powerless(Restored(header, ts, plans))
  {
  }

  lemma RecoveredIsPowerless(file: seq<Byte>)
    requires Recover(file).Ok?
    ensures Powerless(Recover(file).value)
  {
    hide Restored, Powerless, ParseRow, ParseTables, ParsePlanTable, HEADER_SCHEMA;
    var body := file[FILE_HEADER..|file| - 4];
    var header := ParseRow(HEADER_SCHEMA, body);
    var ts := ParseTables(SCHEMAS, header.rest);
    var plans := ParsePlanTable(ts.rest);
    RestoredIsPowerless(header.value, ts.value, plans.value);
  }

  // ---------------------------------------------------------------------
  // What a restart restores is sound
  // ---------------------------------------------------------------------

  /** s' is what recovery makes of the state file of s. */
  ghost predicate Restarts(s: State, s': State) {
    WellFiled(s) && WithinLimits(s) && Recover(Persist(s)) == Ok(s')
  }

  lemma SoundIsWellFiled(s: State)
    requires Inv(s)
    ensures WellFiled(s)
  {
    hide WorkersSound, RegisteredSound, LedgerSound, PlanSound, Seen;
  }

  /** Some of the plans of s, as they survive. */
  ghost predicate SurvivingPlans(plans: map<nat, Plan>, s: State) {
    forall k :: k in plans ==> k in s.plans && plans[k] == DurablePlan(s.plans[k])
  }

  lemma RestoredPlansSurvive(t: Table, s: State)
    requires IsPart(t, PlanTable(s))
    ensures SurvivingPlans(Mapped(PlanOf, t), s)
  {
    hide PlanOf, PlanRow, DurablePlan;
    forall k | k in t ensures k in s.plans && Mapped(PlanOf, t)[k] == DurablePlan(s.plans[k]) {
      PlanReadsBack(s.plans[k]);
    }
  }

  /** A restart restores the durable part of the state, with all of its plans or some of them. */
  lemma RestartIsDurable(s: State, s': State)
    requires Restarts(s, s')
    ensures s' == Durable(s).(plans := s'.plans) && SurvivingPlans(s'.plans, s)
  {
    hide WellFiled, Recover, RecoverBody, Body, Framed, EncodeTable, ParsePlanTable, TablesOf, PlansReadable, RowsOf;
    hide TableIsSized, Mapped, HeaderRow, Durable, IsPart, SurvivingPlans;
    FrameReadsBack(Body(s));
    PersistedBodyParses(s);
    PlansAreFiled(s);
    PlansReadBack(s.plans);
    PlanTableReadsBack(PlanTable(s));
    var p := ParsePlanTable(EncodeTable(PlanTable(s)));
    RestoredPlansSurvive(p.value, s);
  }

  lemma DurableBuffersAreSound(m: map<nat, Buffer>, n: nat, epoch: nat, maxBoot: map<nat, nat>)
    requires BuffersSound(m, n, epoch, maxBoot)
    ensures BuffersSound(Mapped(DurableBuffer, m), n, epoch, map[])
  {
  }

  lemma DurableInventoryIsSound(
    endpoints: map<nat, Endpoint>, devices: map<nat, Device>, nics: map<nat, Nic>, storage: map<nat, StorageEndpoint>,
    providers: map<nat, Provider>, n: nat)
    requires EndpointsSound(endpoints, n) && DevicesSound(devices, n) && InventorySound(nics, storage, providers)
    ensures EndpointsSound(Mapped(DurableEndpoint, endpoints), n) && DevicesSound(Mapped(DurableDevice, devices), n)
    ensures InventorySound(Mapped(DurableNic, nics), Mapped(DurableStorage, storage), providers)
  {
  }

  lemma RekeyedIsSound(cs: map<nat, Capability>, n: nat)
    requires CapabilitiesSound(cs, n)
    ensures DistinctIds(cs) && CapabilitiesSound(Rekeyed(cs), n)
  {
  }

  lemma DurableRegistrationsAreSound(rs: map<nat, Registration>, buffers: map<nat, Buffer>,
                                     endpoints: map<nat, Endpoint>)
    requires RegistrationsSound(rs, buffers, endpoints)
    ensures RegistrationsSound(Mapped(DurableRegistration, rs), Mapped(DurableBuffer, buffers),
                               Mapped(DurableEndpoint, endpoints))
  {
  }

  lemma DurablePlansAreSound(s: State, plans: map<nat, Plan>)
    requires PlansSound(s.plans, s.buffers, s.endpoints, s.epoch, s.nextId) && SurvivingPlans(plans, s)
    ensures PlansSound(plans, Mapped(DurableBuffer, s.buffers), Mapped(DurableEndpoint, s.endpoints), s.epoch, s.nextId)
  {
    forall k | k in plans
      ensures plans[k].id == k && 0 < k <= s.nextId
      ensures PlanSound(plans[k], Mapped(DurableBuffer, s.buffers), Mapped(DurableEndpoint, s.endpoints), s.epoch)
    {
      assert PlanSound(s.plans[k], s.buffers, s.endpoints, s.epoch);
    }
  }

  lemma PowerlessIsUnencumbered(s: State)
    requires Powerless(s)
    ensures WorkersSound(s.workers, s.maxBoot)
    ensures LedgerSound(s.plans, s.attempts, s.receipts, s.verifications, s.nextId)
    ensures RegisteredSound(s.registrations, s.buffers, s.endpoints, s.epoch, s.workers)
  {
  }

  /** What a restart restores of a sound state is sound, and powerless. */
  lemma RestartIsSound(s: State, s': State)
    requires Inv(s) && Restarts(s, s')
    ensures Inv(s') && Powerless(s')
  {
    hide WorkersSound, BuffersSound, EndpointsSound, DevicesSound, CapabilitiesSound, InventorySound, LedgerSound;
    hide RegistrationsSound, RegisteredSound, PlansSound, WellFiled, WithinLimits, Recover, Persist, SurvivingPlans;
    hide Mapped, Rekeyed, DistinctIds;
    SoundIsWellFiled(s);
    RecoveredIsPowerless(Persist(s));
    RestartIsDurable(s, s');
    PowerlessIsUnencumbered(s');
    DurableBuffersAreSound(s.buffers, s.nextId, s.epoch, s.maxBoot);
    DurableInventoryIsSound(s.endpoints, s.devices, s.nics, s.storage, s.providers, s.nextId);
    RekeyedIsSound(s.capabilities, s.nextId);
    DurableRegistrationsAreSound(s.registrations, s.buffers, s.endpoints);
    DurablePlansAreSound(s, s'.plans);
  }

  // ---------------------------------------------------------------------
  // Lifetimes
  // ---------------------------------------------------------------------

  /** The next run starts from the state file of some state of this one. */
  ghost predicate Follows(r: Run, next: Run) {
    && IsRun(next) && next.states[0].calls == map[]
    && exists m :: 0 <= m < |r.states| && Restarts(r.states[m].st, next.states[0].st)
  }

  ghost predicate IsLifetime(rs: seq<Run>) {
    && |rs| > 0 && IsFreshRun(rs[0])
    && forall j :: 0 < j < |rs| ==> Follows(rs[j - 1], rs[j])
  }

  /** A run of a new coordinator, or of one restarted any number of times. */
  ghost predicate IsLife(r: Run) {
    exists rs: seq<Run> :: IsLifetime(rs) && rs[|rs| - 1] == r
  }

  lemma FreshRunIsLife(r: Run)
    requires IsFreshRun(r)
    ensures IsLife(r)
  {
    hide IsFreshRun, Follows;
    assert IsLifetime([r]);
  }

  /** How every run of a lifetime starts. */
  ghost predicate StartsSound(r: Run) {
    IsRun(r) && r.states[0].calls == map[] && Inv(r.states[0].st) && Powerless(r.states[0].st)
  }

  lemma FreshStartsSound(r: Run)
    requires IsFreshRun(r)
    ensures StartsSound(r)
  {
    hide StepAt, Inv;
    var epoch: nat :| r.states[0] == System(InitialState(epoch), map[]);
    InitialStateSound(epoch);
  }

  lemma FollowingStartsSound(r: Run, next: Run)
    requires StartsSound(r) && Follows(r, next)
    ensures StartsSound(next)
  {
    hide StepAt, Inv, Powerless, Restarts;
    var m :| 0 <= m < |r.states| && Restarts(r.states[m].st, next.states[0].st);
    ReachesSound(r, m);
    RestartIsSound(r.states[m].st, next.states[0].st);
  }

  lemma {:induction false} LifetimeStartsSound(rs: seq<Run>, j: nat)
    requires IsLifetime(rs) && j < |rs|
    ensures StartsSound(rs[j])
  {
    hide IsFreshRun, StartsSound, Follows;
    if j == 0 {
      FreshStartsSound(rs[0]);
    } else {
      LifetimeStartsSound(rs, j - 1);
      FollowingStartsSound(rs[j - 1], rs[j]);
    }
  }

  /** Every run of every lifetime is lawful, and starts without any authority. */
  lemma LifeIsLawful(r: Run)
    requires IsLife(r)
    ensures IsRun(r) && |r.states| == |r.actions| + 1 && r.states[0].calls == map[]
    ensures Lawful(StatesOf(r)) && Powerless(StatesOf(r)[0])
  {
    hide StepAt, IsFreshRun, Follows, Inv, Powerless, Lawful;
    var rs: seq<Run> :| IsLifetime(rs) && rs[|rs| - 1] == r;
    LifetimeStartsSound(rs, |rs| - 1);
    RunLength(r);
    RunIsLawful(r);
  }
}
