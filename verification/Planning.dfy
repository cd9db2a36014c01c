/** Planning across its two halves, with any steps of other callers between them. */
module Planning {
  import opened Types
  import opened PathPlanner
  import opened CoordinatorModel
  import opened Protocol
  import opened Invariants
  import opened Steps
  import opened Grants
  import opened Runs
  import opened Lifetimes
  import opened Histories

  // ---------------------------------------------------------------------
  // Every pending decision was made on a real snapshot
  // ---------------------------------------------------------------------

  lemma CallStep(sys: System, a: Action, sys': System, c: nat)
    requires IsStep(sys, a, sys') && c in sys'.calls
    ensures
      || (c in sys.calls && sys'.calls[c] == sys.calls[c])
      || (a.DoSnapshot? && IsEvidence(sys.st, a.request, a.evidence) &&
          sys'.calls[c] == PlanCall(a.request, Decide(a.request, a.evidence)))
  {
    hide NextState, Decide, IsEvidence, IsLatest, IsNamed, IsObservation;
  }

  lemma {:induction false} CallWasSnapshot(r: Run, i: nat, c: nat) returns (h: nat, ev: Evidence)
    requires IsRun(r) && r.states[0].calls == map[] && i < |r.states| && c in r.states[i].calls
    ensures h < i && IsEvidence(r.states[h].st, r.states[i].calls[c].request, ev)
    ensures r.states[i].calls[c].decision == Decide(r.states[i].calls[c].request, ev)
    decreases i
  {
    hide IsStep, IsEvidence, Decide;
    StepOf(r, i - 1);
    CallStep(r.states[i - 1], r.actions[i - 1], r.states[i], c);
    if c in r.states[i - 1].calls && r.states[i].calls[c] == r.states[i - 1].calls[c] {
      h, ev := CallWasSnapshot(r, i - 1, c);
    } else {
      h, ev := i - 1, r.actions[i - 1].evidence;
    }
  }

  // ---------------------------------------------------------------------
  // Every plan stems from a snapshot that justified it
  // ---------------------------------------------------------------------

  /** What a commit records of the decision it carries out. */
  lemma CommitRecordsDecision(s: State, req: Request, d: Decision, chosen: Option<nat>, explanation: Text)
    requires Inv(s)
    requires req.source in s.buffers && req.destination in s.endpoints ==>
               IsLatest(RegisteredOnly(s.registrations), s.buffers[req.source].id, s.endpoints[req.destination].id,
                        chosen)
    requires CommitPlan(s, req, d, chosen, explanation).reply.Ok?
    ensures
      var p := CommitPlan(s, req, d, chosen, explanation).reply.value;
      && p.source == req.source && p.destination == req.destination && p.expectedBytes == req.size
      && p.policy == req.policy
      && p.eligibility == d.eligibility && Plannable(d)
      && p.sourceGeneration == d.sourceGeneration && p.destinationGeneration == d.destinationGeneration
      && p.source in s.buffers && s.buffers[p.source].generation == p.sourceGeneration
      && p.destination in s.endpoints && s.endpoints[p.destination].generation == p.destinationGeneration
      && p.sourceGeneration >= 1 && p.destinationGeneration >= 1
  {
    hide Inv, IsLatest, RegisteredOnly, Stages, FilePlan;
    BufferIdIsKey(s, req.source);
    EndpointIdIsKey(s, req.destination);
  }

  /** The snapshot of state s justified the plan for the request. */
  ghost predicate Justifies(s: State, req: Request, ev: Evidence, p: Plan) {
    && IsEvidence(s, req, ev)
    && p.source == req.source && p.destination == req.destination && p.expectedBytes == req.size
    && p.policy == req.policy
    && p.eligibility == Decide(req, ev).eligibility
    && p.sourceGeneration == ev.source.generation && p.destinationGeneration == ev.destination.generation
    && (p.Direct() <==> DirectPathValid(req, ev))
    && (!p.Direct() ==> !req.policy.DirectOnly? && DestinationUsable(ev) && StagingEvidenced(ev))
  }

  lemma DecisionJustifies(s: State, req: Request, ev: Evidence, p: Plan)
    requires IsEvidence(s, req, ev) && Plannable(Decide(req, ev))
    requires p.source == req.source && p.destination == req.destination && p.expectedBytes == req.size
    requires p.policy == req.policy
    requires p.eligibility == Decide(req, ev).eligibility
    requires p.sourceGeneration == Decide(req, ev).sourceGeneration
    requires p.destinationGeneration == Decide(req, ev).destinationGeneration
    ensures Justifies(s, req, ev, p)
  {
    hide IsEvidence, DirectPathValid, DestinationUsable, StagingEvidenced, Decide;
    DirectIffValid(req, ev);
    FallbackIffStageable(req, ev);
    DecisionGenerations(req, ev);
  }

  lemma DecisionGenerations(req: Request, ev: Evidence)
    ensures Decide(req, ev).sourceGeneration == ev.source.generation
    ensures Decide(req, ev).destinationGeneration == ev.destination.generation
  {
  }

  lemma CommitStep(sys: System, a: Action, p: Plan)
    requires Inv(sys.st) && Commits(sys, a, p)
    ensures a.DoCommitPlan? && a.call in sys.calls && p.sourceGeneration >= 1 && p.destinationGeneration >= 1
    ensures
      var req, d := sys.calls[a.call].request, sys.calls[a.call].decision;
      && p.source == req.source && p.destination == req.destination && p.expectedBytes == req.size
      && p.policy == req.policy
      && p.eligibility == d.eligibility && Plannable(d)
      && p.sourceGeneration == d.sourceGeneration && p.destinationGeneration == d.destinationGeneration
      && p.source in sys.st.buffers && sys.st.buffers[p.source].generation == p.sourceGeneration
      && p.destination in sys.st.endpoints && sys.st.endpoints[p.destination].generation == p.destinationGeneration
  {
    hide Inv, IsLatest, RegisteredOnly, CommitPlan, Plannable;
    CommitRecordsDecision(sys.st, sys.calls[a.call].request, sys.calls[a.call].decision, a.chosen, a.explanation);
  }

  /** Whatever ran between the two halves, a committed plan was justified by a snapshot of an earlier
      state, and in every state from that snapshot to the commit the source and the destination had the
      generations the plan records. */
  lemma PlanStemsFromSnapshot(r: Run, i: nat, p: Plan) returns (h: nat, req: Request, ev: Evidence)
    requires i < |r.actions| && i < |r.states| && IsLife(r) && Commits(r.states[i], r.actions[i], p)
    ensures h < i && Justifies(r.states[h].st, req, ev, p)
    ensures forall m :: h <= m <= i ==> GenerationsAre(r.states[m].st, p)
  {
    hide IsRun, IsLife, Powerless, Commits, Justifies, Lawful, Inv, Decide, Plannable, IsEvidence;
    LifeIsLawful(r);
    var ss := StatesOf(r);
    SoundAt(ss, i);
    CommitStep(r.states[i], r.actions[i], p);
    var c := r.actions[i].call;
    h, ev := CallWasSnapshot(r, i, c);
    req := r.states[i].calls[c].request;
    DecisionJustifies(r.states[h].st, req, ev, p);
    SnapshotGenerations(ss[h], req, ev, p);
    GenerationsHeld(ss, h, i, p);
  }

  lemma GenerationsHeld(ss: seq<State>, h: nat, i: nat, p: Plan)
    requires Lawful(ss) && h <= i < |ss| && GenerationsAre(ss[h], p) && GenerationsAre(ss[i], p)
    ensures forall m :: h <= m <= i ==> GenerationsAre(ss[m], p)
  {
    hide Lawful;
    forall m | h <= m <= i ensures GenerationsAre(ss[m], p) {
      GenerationsOnlyGrow(ss, h, m, p.source, p.destination);
      GenerationsOnlyGrow(ss, m, i, p.source, p.destination);
    }
  }

  ghost predicate GenerationsAre(s: State, p: Plan) {
    && p.source in s.buffers && s.buffers[p.source].generation == p.sourceGeneration
    && p.destination in s.endpoints && s.endpoints[p.destination].generation == p.destinationGeneration
  }

  lemma SnapshotGenerations(s: State, req: Request, ev: Evidence, p: Plan)
    requires Justifies(s, req, ev, p) && p.sourceGeneration >= 1 && p.destinationGeneration >= 1
    ensures GenerationsAre(s, p)
  {
    hide Decide, Lists, DirectPathValid, DestinationUsable, StagingEvidenced;
  }

  lemma {:induction false} GenerationsOnlyGrow(ss: seq<State>, i: nat, j: nat, b: nat, e: nat)
    requires Lawful(ss) && i <= j < |ss| && b in ss[i].buffers && e in ss[i].endpoints
    ensures b in ss[j].buffers && ss[i].buffers[b].generation <= ss[j].buffers[b].generation
    ensures e in ss[j].endpoints && ss[i].endpoints[e].generation <= ss[j].endpoints[e].generation
  {
    hide Lawful, Inv, WorkersEvolve, PlansEvolve, PlansAreBound, LedgerEvolves;
    if i == j {
      // Base case: one state, nothing to show.
    } else {
      GenerationsOnlyGrow(ss, i, j - 1, b, e);
      SoundAt(ss, j);
    }
  }
}
