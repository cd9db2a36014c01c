/** What holds in every state a coordinator reaches, and what no step undoes. */
module Invariants {
  import opened Types
  import opened CoordinatorModel

  // ---------------------------------------------------------------------
  // One-state invariants, table by table
  // ---------------------------------------------------------------------

  /** A live worker runs at the highest boot ever recorded for it. */
  ghost predicate WorkersSound(workers: map<nat, nat>, maxBoot: map<nat, nat>) {
    forall w :: w in workers ==> w != 0 && w in maxBoot && maxBoot[w] == workers[w]
  }

  /** The authority was live at some point: its epoch has come and its boot has been recorded. */
  ghost predicate Seen(a: Authority, epoch: nat, maxBoot: map<nat, nat>) {
    a.epoch <= epoch && a.worker in maxBoot && a.boot <= maxBoot[a.worker]
  }

  ghost predicate BuffersSound(buffers: map<nat, Buffer>, nextId: nat, epoch: nat, maxBoot: map<nat, nat>) {
    forall k :: k in buffers ==>
      && buffers[k].id == k && 0 < k <= nextId && buffers[k].generation >= 1
      && (buffers[k].authority.WorkerOwned() ==> Seen(buffers[k].authority, epoch, maxBoot))
  }

  ghost predicate EndpointsSound(endpoints: map<nat, Endpoint>, nextId: nat) {
    forall k :: k in endpoints ==> endpoints[k].id == k && 0 < k <= nextId && endpoints[k].generation >= 1
  }

  ghost predicate DevicesSound(devices: map<nat, Device>, nextId: nat) {
    forall k :: k in devices ==> devices[k].id == k && 0 < k <= nextId
  }

  ghost predicate CapabilitiesSound(caps: map<nat, Capability>, nextId: nat) {
    && (forall k :: k in caps ==> 0 < k <= nextId && 0 < caps[k].id <= nextId)
    && (forall k, j :: k in caps && j in caps && k != j ==>
          && caps[k].id != caps[j].id
          && !(caps[k].provider == caps[j].provider && caps[k].capability == caps[j].capability))
  }

  /** The inventory is filed under its ids. */
  ghost predicate InventorySound(nics: map<nat, Nic>, storage: map<nat, StorageEndpoint>,
                                 providers: map<nat, Provider>) {
    && (forall k :: k in nics ==> nics[k].id == k)
    && (forall k :: k in storage ==> storage[k].id == k)
    && (forall k :: k in providers ==> providers[k].id == k)
  }

  /** Registrations are filed under their ids, point at existing objects, carry the authority of a
      worker-owned buffer, and no two of a pair share a generation. */
  ghost predicate RegistrationsSound(rs: map<nat, Registration>, buffers: map<nat, Buffer>,
                                     endpoints: map<nat, Endpoint>) {
    && (forall k :: k in rs ==>
          && rs[k].id == k && k != 0 && !rs[k].state.Registering? && !rs[k].state.Deregistering?
          && rs[k].buffer in buffers && rs[k].endpoint in endpoints
          && (buffers[rs[k].buffer].authority.WorkerOwned() ==> rs[k].authority == buffers[rs[k].buffer].authority))
    && (forall k, j :: k in rs && j in rs && k != j && rs[k].Joins(rs[j].buffer, rs[j].endpoint) ==>
          rs[k].generation != rs[j].generation)
  }

  /** What REGISTERED stands for: the newest grant of its pair, made for exactly the current buffer
      and endpoint, in this epoch, by an authority whose worker is live at that boot or a later one. */
  ghost predicate Current(r: Registration, rs: map<nat, Registration>, buffers: map<nat, Buffer>,
                          endpoints: map<nat, Endpoint>, epoch: nat, workers: map<nat, nat>) {
    && r.buffer in buffers && buffers[r.buffer].lifecycle.Active?
    && buffers[r.buffer].generation == r.bufferGeneration
    && r.endpoint in endpoints && endpoints[r.endpoint].generation == r.endpointGeneration
    && r.authority.epoch == epoch
    && (r.authority.WorkerOwned() ==> r.authority.worker in workers && r.authority.boot <= workers[r.authority.worker])
    && (forall j :: j in rs && rs[j].Joins(r.buffer, r.endpoint) && j != r.id ==> rs[j].generation < r.generation)
  }

  ghost predicate RegisteredSound(rs: map<nat, Registration>, buffers: map<nat, Buffer>, endpoints: map<nat, Endpoint>,
                                  epoch: nat, workers: map<nat, nat>) {
    forall k :: k in rs && rs[k].state.Registered? ==> Current(rs[k], rs, buffers, endpoints, epoch, workers)
  }

  /** The plan was made for the objects as they are now. */
  ghost predicate UpToDate(p: Plan, buffers: map<nat, Buffer>, endpoints: map<nat, Endpoint>, epoch: nat) {
    && p.epoch == epoch
    && p.source in buffers && buffers[p.source].generation == p.sourceGeneration
    && p.destination in endpoints && endpoints[p.destination].generation == p.destinationGeneration
  }

  /** Up to date, and the source is still in use. */
  ghost predicate InForce(p: Plan, buffers: map<nat, Buffer>, endpoints: map<nat, Endpoint>, epoch: nat) {
    UpToDate(p, buffers, endpoints, epoch) && buffers[p.source].lifecycle.Active?
  }

  ghost predicate PlanSound(p: Plan, buffers: map<nat, Buffer>, endpoints: map<nat, Endpoint>, epoch: nat) {
    && p.source in buffers && p.sourceGeneration <= buffers[p.source].generation
    && p.destination in endpoints && p.destinationGeneration <= endpoints[p.destination].generation
    && p.epoch <= epoch
    && (p.Direct() || p.eligibility.FallbackRequired?)
    && p.copyCount == (if p.Direct() then 1 else 2)
    && (p.Direct() ==> p.registrationId != 0 && p.registrationBufferGeneration == p.sourceGeneration)
    && (p.authoritative ==> UpToDate(p, buffers, endpoints, epoch))
    && (p.authoritative && p.Direct() ==> buffers[p.source].lifecycle.Active?)
  }

  ghost predicate PlansSound(plans: map<nat, Plan>, buffers: map<nat, Buffer>, endpoints: map<nat, Endpoint>,
                             epoch: nat, nextId: nat) {
    forall k :: k in plans ==>
      plans[k].id == k && 0 < k <= nextId && PlanSound(plans[k], buffers, endpoints, epoch)
  }

  /** A worker acts on its own plans and on those of no worker. */
  ghost predicate Rightful(a: Authority, p: Plan) {
    a.worker != 0 && p.authority.worker != 0 ==> a == p.authority
  }

  /** Attempts belong to plans; receipts restate their attempts; only settled attempts have them. */
  ghost predicate AttemptSound(k: nat, a: Attempt, plans: map<nat, Plan>, receipts: map<nat, Receipt>) {
    && a.id == k
    && a.planId in plans && a.submittedBytes == plans[a.planId].expectedBytes
    && Rightful(a.authority, plans[a.planId])
    && (a.state.InFlight? || a.state.Completed? || a.state.Cancelled? || a.state.TransferFailed?)
    && (a.state.InFlight? ==> k !in receipts && !a.completionCommitted)
    && (a.state.Completed? ==> a.completionCommitted && (a.submittedBytes == 0 || a.bytes == a.submittedBytes))
    && (a.state.Cancelled? ==> k in receipts && !a.completionCommitted)
    && (a.completionCommitted ==> k in receipts)
    && (k in receipts ==>
          && receipts[k] == ReceiptFor(a, a.state, receipts[k].integrityVerified)
          && (receipts[k].integrityVerified ==> a.integrityChecked && a.integrityPassed)
          && (a.state.Completed? ==> receipts[k].integrityVerified == a.integrityChecked))
  }

  ghost predicate HasVerification(k: nat, r: Receipt, verifications: map<nat, Verification>) {
    exists v :: v in verifications && verifications[v].attemptId == k && verifications[v].passed &&
                verifications[v].bytesChecked == r.bytes
  }

  ghost predicate LedgerSound(plans: map<nat, Plan>, attempts: map<nat, Attempt>, receipts: map<nat, Receipt>,
                              verifications: map<nat, Verification>, nextId: nat) {
    && (forall k :: k in attempts ==> 0 < k <= nextId && AttemptSound(k, attempts[k], plans, receipts))
    && (forall k :: k in receipts ==> k in attempts)
    && (forall v :: v in verifications ==> v <= nextId)
    && (forall k :: k in receipts && receipts[k].state.Completed? && receipts[k].integrityVerified ==>
          HasVerification(k, receipts[k], verifications))
  }

  ghost predicate Inv(s: State) {
    && WorkersSound(s.workers, s.maxBoot)
    && BuffersSound(s.buffers, s.nextId, s.epoch, s.maxBoot)
    && EndpointsSound(s.endpoints, s.nextId)
    && DevicesSound(s.devices, s.nextId)
    && CapabilitiesSound(s.capabilities, s.nextId)
    && InventorySound(s.nics, s.storage, s.providers)
    && RegistrationsSound(s.registrations, s.buffers, s.endpoints)
    && RegisteredSound(s.registrations, s.buffers, s.endpoints, s.epoch, s.workers)
    && PlansSound(s.plans, s.buffers, s.endpoints, s.epoch, s.nextId)
    && LedgerSound(s.plans, s.attempts, s.receipts, s.verifications, s.nextId)
  }

  lemma InitialStateSound(epoch: nat)
    ensures Inv(InitialState(epoch))
  {
  }

  // ---------------------------------------------------------------------
  // Two-state laws
  // ---------------------------------------------------------------------

  /** The epoch never goes back; recorded boots only rise; a worker that appears or changes takes a
      boot above everything recorded for it, unless nothing above 0 was recorded. */
  ghost predicate WorkersEvolve(s: State, s': State) {
    && s.epoch <= s'.epoch
    && (forall w :: w in s.maxBoot ==> w in s'.maxBoot && s.maxBoot[w] <= s'.maxBoot[w])
    && (forall w :: w in s'.workers ==>
          || (s.epoch == s'.epoch && w in s.workers && s.workers[w] == s'.workers[w])
          || w !in s.maxBoot || s.maxBoot[w] == 0 || s.maxBoot[w] < s'.workers[w])
  }

  /** Buffers stay, keep their owner, never grow younger or come back from retirement, and change
      only while a worker that owns them is live. */
  ghost predicate BuffersEvolve(s: State, s': State) {
    forall k :: k in s.buffers ==>
      && k in s'.buffers
      && s.buffers[k].authority == s'.buffers[k].authority
      && s.buffers[k].generation <= s'.buffers[k].generation
      && (s.buffers[k].lifecycle.RetiredBuffer? ==> s'.buffers[k].lifecycle.RetiredBuffer?)
      && (s.buffers[k].authority.WorkerOwned() && s.buffers[k] != s'.buffers[k] ==> Live(s, s.buffers[k].authority))
  }

  ghost predicate EndpointsEvolve(s: State, s': State) {
    forall k :: k in s.endpoints ==> k in s'.endpoints && s.endpoints[k].generation <= s'.endpoints[k].generation
  }

  /** Plans stay as made, except that they may lose their authority, for good and only when no longer in force. */
  ghost predicate PlansEvolve(s: State, s': State) {
    forall k :: k in s.plans ==>
      && k in s'.plans
      && (s'.plans[k] == s.plans[k] || LosesAuthority(s.plans[k], s'.plans[k], s'.buffers, s'.endpoints, s'.epoch))
  }

  ghost predicate LosesAuthority(p: Plan, p': Plan, buffers: map<nat, Buffer>, endpoints: map<nat, Endpoint>,
                                 epoch: nat) {
    p' == p.(authoritative := false) && !InForce(p, buffers, endpoints, epoch)
  }

  /** The stages lead from the source to the destination, each from where the one before ended, one per copy. */
  ghost predicate WellStaged(p: Plan) {
    && |p.stages| == p.copyCount && p.copyCount >= 1
    && p.stages[0].src == p.source && p.stages[|p.stages| - 1].endpoint == p.destination
    && p.stages[|p.stages| - 1].dst == 0
    && (forall i :: 0 <= i < |p.stages| - 1 ==>
          p.stages[i].dst == p.stages[i + 1].src && p.stages[i].dst != 0 && p.stages[i].endpoint == 0)
    && (forall i :: 0 <= i < |p.stages| ==> p.stages[i].direct == p.Direct())
  }

  /** A new plan is well staged; a direct one binds a registration that is REGISTERED, for its own pair, now. */
  ghost predicate PlansAreBound(s: State, s': State) {
    forall k :: k in s'.plans && k !in s.plans ==>
      && s'.plans[k].authoritative && WellStaged(s'.plans[k]) && s'.registrations == s.registrations
      && (s'.plans[k].Direct() ==> BoundTo(s'.plans[k], s.registrations))
  }

  ghost predicate BoundTo(p: Plan, rs: map<nat, Registration>) {
    && p.registrationId in rs && rs[p.registrationId].state.Registered?
    && rs[p.registrationId].Joins(p.source, p.destination)
    && rs[p.registrationId].generation == p.registrationGeneration
    && rs[p.registrationId].bufferGeneration == p.registrationBufferGeneration
  }

  /** Attempts stay and keep what they were started with; settled ones are final. */
  ghost predicate LedgerEvolves(s: State, s': State) {
    && (forall k :: k in s.attempts ==>
          && k in s'.attempts && s'.attempts[k].planId == s.attempts[k].planId
          && (s.attempts[k].state.Cancelled? ==> s'.attempts[k].state.Cancelled?)
          && (s.attempts[k].completionCommitted ==>
                && s'.attempts[k] == s.attempts[k] && k in s'.receipts
                && (k in s.receipts ==> s'.receipts[k] == s.receipts[k]))
          && (s'.attempts[k].state.Completed? && !s.attempts[k].state.Completed? ==>
                s.attempts[k].planId in s.plans && s.plans[s.attempts[k].planId].authoritative && s'.plans == s.plans))
    && (forall k :: k in s'.attempts && k !in s.attempts ==>
          && s'.attempts[k].planId in s.plans && !s'.attempts[k].state.Completed?
          && (s'.attempts[k].authority.WorkerOwned() ==> Live(s, s'.attempts[k].authority))
          && MayBegin(s, s.plans[s'.attempts[k].planId]))
    && (forall k :: k in s.receipts ==> k in s'.receipts)
  }

  /** What `begin` has checked when it lets an attempt start. */
  ghost predicate MayBegin(s: State, p: Plan) {
    && p.authoritative && UpToDate(p, s.buffers, s.endpoints, s.epoch)
    && (p.registrationId != 0 ==> RegistrationHolds(s, p))
  }

  ghost predicate Evolves(s: State, s': State) {
    && WorkersEvolve(s, s') && BuffersEvolve(s, s') && EndpointsEvolve(s, s')
    && PlansEvolve(s, s') && PlansAreBound(s, s') && LedgerEvolves(s, s')
  }
}
