/** On reachable states the planner's answer does not depend on the order of its evidence, and its
    selections agree with the coordinator's own, which are coded differently. */
module Agreement {
  import opened Types
  import opened PathPlanner
  import opened CoordinatorModel
  import opened Protocol
  import opened Invariants
  import opened Runs
  import opened Lifetimes
  import opened Histories
  import opened Liveness

  // ---------------------------------------------------------------------
  // Registrations
  // ---------------------------------------------------------------------

  /** At most one registration of a pair is REGISTERED; it is strictly the newest of the pair and was made
      for the active buffer and the endpoint exactly as they are, in this epoch. */
  lemma RegisteredIsUniqueAndCurrent(r: Run, i: nat, k: nat)
    requires IsLife(r) && i < |r.states|
    requires k in r.states[i].st.registrations && r.states[i].st.registrations[k].state.Registered?
    ensures
      var s := r.states[i].st;
      var reg := s.registrations[k];
      && Current(reg, s.registrations, s.buffers, s.endpoints, s.epoch, s.workers)
      && (forall j :: j in s.registrations && s.registrations[j].Joins(reg.buffer, reg.endpoint) && j != k ==>
            !s.registrations[j].state.Registered? && s.registrations[j].generation < reg.generation)
  {
    hide IsLife, Lawful, Inv;
    LifeIsLawful(r);
    var s := StatesOf(r)[i];
    SoundAt(StatesOf(r), i);
    RegisteredTops(s, k);
  }

  lemma RegisteredTops(s: State, k: nat)
    requires Inv(s) && k in s.registrations && s.registrations[k].state.Registered?
    ensures
      var rs := s.registrations;
      && Current(rs[k], rs, s.buffers, s.endpoints, s.epoch, s.workers)
      && (forall j :: j in rs && rs[j].Joins(rs[k].buffer, rs[k].endpoint) && j != k ==>
            !rs[j].state.Registered? && rs[j].generation < rs[k].generation)
  {
    hide WorkersSound, BuffersSound, EndpointsSound, DevicesSound, CapabilitiesSound, InventorySound, PlansSound;
    hide LedgerSound;
    var rs := s.registrations;
    assert Current(rs[k], rs, s.buffers, s.endpoints, s.epoch, s.workers);
    assert forall j :: j in rs && rs[j].state.Registered? ==> Current(rs[j], rs, s.buffers, s.endpoints, s.epoch,
                                                                      s.workers);
  }

  /** The planner takes the newest registration of the pair and then insists that it be REGISTERED; the
      commit takes the newest among the REGISTERED. They find the same one, or both find none. */
  lemma SelectionsAgree(s: State, req: Request, ev: Evidence, chosen: Option<nat>)
    requires Inv(s) && IsEvidence(s, req, ev)
    requires IsLatest(RegisteredOnly(s.registrations), ev.source.id, ev.destination.id, chosen)
    ensures
      var reg := RegistrationFor(ev);
      && (chosen.Some? <==> reg.Some? && reg.value.state.Registered?)
      && (chosen.Some? ==> reg == Some(s.registrations[chosen.value]))
  {
    hide Inv, Lists, NewestRegistration;
    var reg := RegistrationFor(ev);
    NewestIsFiled(s, req, ev);
    if chosen.Some? {
      RegisteredTops(s, chosen.value);
      ListedIsFiled(s.registrations, ev.registrations, s.registrations[chosen.value]);
    }
    if reg.Some? && reg.value.state.Registered? {
      var k :| k in s.registrations && s.registrations[k] == reg.value;
      assert RegisteredOnly(s.registrations)[k] == reg.value;
    }
  }

  lemma NewestIsFiled(s: State, req: Request, ev: Evidence)
    requires IsEvidence(s, req, ev)
    ensures
      var reg := RegistrationFor(ev);
      reg.Some? ==> exists k :: k in s.registrations && s.registrations[k] == reg.value
  {
    hide Lists;
    var reg := RegistrationFor(ev);
    if reg.Some? { ListedIsFiled(s.registrations, ev.registrations, reg.value); }
  }

  /** The planner's check of a REGISTERED registration's generations can never be what rejects it. */
  lemma RegisteredIsNeverStale(s: State, req: Request, ev: Evidence)
    requires Inv(s) && IsEvidence(s, req, ev)
    ensures
      var reg := RegistrationFor(ev);
      reg.Some? && reg.value.state.Registered? ==>
        && GenerationsMatch(reg.value, ev)
        && (RegistrationUsable(reg, ev) <==> Live(s, reg.value.authority))
  {
    hide Inv, Lists, NewestRegistration, Live, AuthorityLive;
    var reg := RegistrationFor(ev);
    if reg.Some? && reg.value.state.Registered? {
      NewestIsFiled(s, req, ev);
      var k :| k in s.registrations && s.registrations[k] == reg.value;
      RegisteredTops(s, k);
      FoundUnderOwnId(s, req, ev, k);
      LiveIffEvidenced(s, req, ev, reg.value.authority);
    }
  }

  lemma FoundUnderOwnId(s: State, req: Request, ev: Evidence, k: nat)
    requires Inv(s) && IsEvidence(s, req, ev) && k in s.registrations
    requires s.registrations[k].Joins(ev.source.id, ev.destination.id)
    ensures req.source in s.buffers && s.buffers[req.source] == ev.source && ev.source.id == req.source
    ensures req.destination in s.endpoints && s.endpoints[req.destination] == ev.destination
    ensures ev.destination.id == req.destination
  {
    hide WorkersSound, DevicesSound, CapabilitiesSound, InventorySound, RegisteredSound, PlansSound, LedgerSound, Seen;
    hide Lists;
  }

  // ---------------------------------------------------------------------
  // Evidence order
  // ---------------------------------------------------------------------

  lemma ListingsAgree<T(!new)>(m: map<nat, T>, a: seq<T>, b: seq<T>)
    requires Lists(m, a) && Lists(m, b)
    ensures SameItems(a, b)
  {
    hide Lists;
    forall v ensures v in a <==> v in b {
      ListedIsFiled(m, a, v);
      ListedIsFiled(m, b, v);
    }
  }

  lemma EvidenceAgrees(s: State, req: Request, a: Evidence, b: Evidence)
    requires IsEvidence(s, req, a) && IsEvidence(s, req, b)
    ensures SameEvidence(a, b)
  {
    hide Lists, SameItems, Incarnations;
    ListingsAgree(s.registrations, a.registrations, b.registrations);
    ListingsAgree(s.capabilities, a.capabilities, b.capabilities);
    ListingsAgree(s.devices, a.devices, b.devices);
    ListingsAgree(s.endpoints, a.endpoints, b.endpoints);
    ListingsAgree(s.providers, a.providers, b.providers);
    ListingsAgree(Incarnations(s.workers), a.liveWorkers, b.liveWorkers);
  }

  lemma NoTies(s: State, req: Request, ev: Evidence)
    requires Inv(s) && IsEvidence(s, req, ev)
    ensures DistinctGenerations(ev.registrations) && DistinctObservations(ev.capabilities)
  {
    hide Lists, WorkersSound, BuffersSound, EndpointsSound, DevicesSound, RegisteredSound, PlansSound, LedgerSound;
    forall r, q | r in ev.registrations && q in ev.registrations && r.Joins(q.buffer, q.endpoint) &&
                  r.generation == q.generation
      ensures r == q
    {
      ListedIsFiled(s.registrations, ev.registrations, r);
      ListedIsFiled(s.registrations, ev.registrations, q);
    }
    forall c, d | c in ev.capabilities && d in ev.capabilities && c.provider == d.provider &&
                  c.capability == d.capability
      ensures c == d
    {
      ListedIsFiled(s.capabilities, ev.capabilities, c);
      ListedIsFiled(s.capabilities, ev.capabilities, d);
    }
  }

  lemma SnapshotsAgree(s: State, req: Request, a: Evidence, b: Evidence)
    requires Inv(s) && IsEvidence(s, req, a) && IsEvidence(s, req, b)
    ensures Decide(req, a) == Decide(req, b)
  {
    hide Inv, IsEvidence, SameEvidence, DistinctGenerations, DistinctObservations, Decide;
    EvidenceAgrees(s, req, a, b);
    NoTies(s, req, a);
    DecisionIgnoresOrder(req, a, b);
  }

  /** In every reachable state, every snapshot of that state leads to the same decision. */
  lemma DecisionIsDetermined(r: Run, i: nat, req: Request, a: Evidence, b: Evidence)
    requires IsLife(r) && i < |r.states|
    requires IsEvidence(r.states[i].st, req, a) && IsEvidence(r.states[i].st, req, b)
    ensures Decide(req, a) == Decide(req, b)
  {
    hide IsLife, Lawful, Inv, IsEvidence, Decide;
    LifeIsLawful(r);
    SoundAt(StatesOf(r), i);
    SnapshotsAgree(r.states[i].st, req, a, b);
  }

  /** In every reachable state: the two selections agree, liveness is judged alike, and a REGISTERED
      registration passes the generation check. */
  lemma PlannerAgreesWithCoordinator(r: Run, i: nat, req: Request, ev: Evidence, chosen: Option<nat>, who: Authority)
    requires IsLife(r) && i < |r.states| && IsEvidence(r.states[i].st, req, ev)
    requires IsLatest(RegisteredOnly(r.states[i].st.registrations), ev.source.id, ev.destination.id, chosen)
    ensures
      var s := r.states[i].st;
      var reg := RegistrationFor(ev);
      && (chosen.Some? <==> reg.Some? && reg.value.state.Registered?)
      && (chosen.Some? ==> reg == Some(s.registrations[chosen.value]) && GenerationsMatch(reg.value, ev))
      && (AuthorityLive(who, ev) <==> Live(s, who))
  {
    hide IsLife, Lawful, Inv, IsEvidence, IsLatest, RegisteredOnly, NewestRegistration, Live, AuthorityLive;
    LifeIsLawful(r);
    var s := r.states[i].st;
    SoundAt(StatesOf(r), i);
    SelectionsAgree(s, req, ev, chosen);
    RegisteredIsNeverStale(s, req, ev);
    LiveIffEvidenced(s, req, ev, who);
  }
}
