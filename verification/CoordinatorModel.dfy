/** The coordinator's state and what each of its atomic operations does to it.
    A choice that the program makes by walking a hash table is an explicit argument here. */
module CoordinatorModel {
  import opened Types
  import opened PathPlanner

  datatype Limits = Limits(buffers: nat, registrations: nat, endpoints: nat, plans: nat, attempts: nat)

  datatype State = State(
    epoch: nat, nextId: nat, freshness: nat,
    buffers: map<nat, Buffer>, devices: map<nat, Device>, endpoints: map<nat, Endpoint>,
    nics: map<nat, Nic>, storage: map<nat, StorageEndpoint>,
    registrations: map<nat, Registration>, providers: map<nat, Provider>, capabilities: map<nat, Capability>,
    plans: map<nat, Plan>, attempts: map<nat, Attempt>, receipts: map<nat, Receipt>,
    verifications: map<nat, Verification>,
    workers: map<nat, nat>,  // live worker -> boot
    maxBoot: map<nat, nat>,  // highest boot ever seen; survives death
    limits: Limits)

  const DEFAULT_LIMITS := Limits(8192, 8192, 4096, 4096, 4096)

  function InitialState(epoch: nat): State {
    State(epoch, 1, 1, map[], map[], map[], map[], map[], map[], map[], map[], map[], map[], map[], map[], map[], map[],
          DEFAULT_LIMITS)
  }

  /** An operation's effect and answer. */
  datatype Step<+T> = Step(state: State, reply: Result<T>)

  // ---------------------------------------------------------------------
  // Parameters
  // ---------------------------------------------------------------------

  datatype BufferParams = BufferParams(
    domain: MemoryDomain, size: nat, alignment: nat, device: nat, locality: Locality, support: Support,
    provenance: Provenance, authority: Authority, name: Text)

  datatype EndpointParams = EndpointParams(
    endpointClass: EndpointClass, name: Text, topologyHint: Text, healthy: bool, provider: nat, support: Support,
    provenance: Provenance, authority: Authority)

  datatype DeviceParams = DeviceParams(
    name: Text, computeCapability: Text, peerMemorySupported: bool, support: Support, provenance: Provenance,
    authority: Authority)

  datatype ProviderParams = ProviderParams(name: Text, available: bool, support: Support, provenance: Provenance)

  datatype CapabilityParams = CapabilityParams(
    provider: Text, capability: Text, value: Text, support: Support, provenance: Provenance, authority: Authority)

  datatype RegisterParams = RegisterParams(
    buffer: nat, endpoint: nat, provider: nat, authority: Authority, support: Support, provenance: Provenance,
    requiredCapabilities: seq<Text>)

  /** What the backend answers to a registration request; id 0 leaves the choice to the coordinator. */
  datatype BackendGrant =
    | NoBackend
    | Refused
    | Granted(id: nat, support: Support, provenance: Provenance, handle: Option<nat>)

  /** What the backend answers to a transfer request. */
  datatype BackendRun =
    | NoRun
    | RunError
    | Outcome(state: TransferState, bytes: nat, integrityChecked: bool, integrityPassed: bool, means: Text,
              support: Support, provenance: Provenance)

  // ---------------------------------------------------------------------
  // Table walks
  // ---------------------------------------------------------------------

  /** k is an entry of the pair (b, e) that no other exceeds in generation; None if there is none. */
  ghost predicate IsLatest(rs: map<nat, Registration>, b: nat, e: nat, k: Option<nat>) {
    if k.None? then forall i :: i in rs ==> !rs[i].Joins(b, e)
    else k.value in rs && rs[k.value].Joins(b, e) &&
         forall i :: i in rs && rs[i].Joins(b, e) ==> rs[i].generation <= rs[k.value].generation
  }

  function RegisteredOnly(rs: map<nat, Registration>): map<nat, Registration> {
    map k | k in rs && rs[k].state.Registered? :: rs[k]
  }

  /** k is some entry that observes the capability; None if there is none. */
  ghost predicate IsObservation(cs: map<nat, Capability>, provider: Text, capability: Text, k: Option<nat>) {
    if k.None? then forall i :: i in cs ==> !(cs[i].provider == provider && cs[i].capability == capability)
    else k.value in cs && cs[k.value].provider == provider && cs[k.value].capability == capability
  }

  ghost predicate IsNamed(ps: map<nat, Provider>, name: Text, k: Option<nat>) {
    if k.None? then forall i :: i in ps ==> ps[i].name != name
    else k.value in ps && ps[k.value].name == name
  }

  /** vs lists the values of m in some order. */
  ghost predicate Lists<T(!new)>(m: map<nat, T>, vs: seq<T>) {
    exists ks: seq<nat> :: ListsBy(m, vs, ks)
  }

  ghost predicate ListsBy<T(!new)>(m: map<nat, T>, vs: seq<T>, ks: seq<nat>) {
    && |ks| == |vs|
    && (forall i, j :: 0 <= i < j < |ks| ==> ks[i] != ks[j])
    && (forall k :: k in m <==> k in ks)
    && (forall i :: 0 <= i < |ks| ==> ks[i] in m && vs[i] == m[ks[i]])
  }

  function Incarnations(workers: map<nat, nat>): map<nat, (nat, nat)> {
    map w | w in workers :: (w, workers[w])
  }

  /** No registration and no plan is touched. */
  predicate LeavesGrants(s: State, s': State) {
    s' == s'.(registrations := s.registrations, plans := s.plans)
  }

  /** Neither the epoch nor any worker's standing is touched. */
  predicate LeavesWorkers(s: State, s': State) {
    s' == s'.(epoch := s.epoch, workers := s.workers, maxBoot := s.maxBoot)
  }

  // ---------------------------------------------------------------------
  // Worker liveness
  // ---------------------------------------------------------------------

  predicate Live(s: State, a: Authority) {
    a.epoch == s.epoch && (a.WorkerOwned() ==> a.worker in s.workers && s.workers[a.worker] == a.boot)
  }

  function RegisterWorker(s: State, worker: nat, boot: nat, epoch: nat): (r: Step<()>)
    ensures LeavesGrants(s, r.state)
  {
    var prev := if worker in s.maxBoot then s.maxBoot[worker] else 0;
    var admitted := s.(workers := s.workers[worker := boot], maxBoot := s.maxBoot[worker := boot]);
    if epoch != s.epoch then Step(s, Err(StaleEpoch))
    else if worker == 0 then Step(s, Err(InvalidArgument))
    else if boot < prev then Step(s, Err(StaleBoot))
    else if prev != 0 && worker in s.workers && s.workers[worker] == boot then Step(s, Ok(()))
    else if prev != 0 && worker !in s.workers && boot <= prev then Step(s, Err(StaleBoot))
    else Step(admitted, Ok(()))
  }

  /** Registrations for which `hit` holds are marked for revalidation, whatever state they were in. */
  function Revalidate(rs: map<nat, Registration>, hit: set<nat>): map<nat, Registration> {
    map k | k in rs :: if k in hit then rs[k].(state := RevalidationRequired) else rs[k]
  }

  function Supersede(ps: map<nat, Plan>, hit: set<nat>): map<nat, Plan> {
    map k | k in ps :: if k in hit then ps[k].(authoritative := false) else ps[k]
  }

  function MarkWorkerDead(s: State, worker: nat): State {
    s.(workers := s.workers - {worker},
       registrations := Revalidate(s.registrations,
         set k | k in s.registrations && s.registrations[k].authority.worker == worker && worker != 0))
  }

  function AdvanceEpoch(s: State): State {
    s.(epoch := s.epoch + 1, workers := map[],
       registrations := Revalidate(s.registrations,
         set k | k in s.registrations &&
                 (s.registrations[k].state.Registered? || s.registrations[k].state.Registering?)),
       plans := Supersede(s.plans, s.plans.Keys))
  }

  // ---------------------------------------------------------------------
  // Buffers, devices, endpoints
  // ---------------------------------------------------------------------

  function InvalidateBuffer(s: State, b: nat): State {
    s.(registrations := Revalidate(s.registrations, set k | k in s.registrations && s.registrations[k].buffer == b),
       plans := Supersede(s.plans, set k | k in s.plans && s.plans[k].source == b))
  }

  function InvalidateEndpoint(s: State, e: nat): State {
    s.(registrations := Revalidate(s.registrations, set k | k in s.registrations && s.registrations[k].endpoint == e),
       plans := Supersede(s.plans, set k | k in s.plans && s.plans[k].destination == e))
  }

  /** Only the live owner may change a worker-owned object. */
  predicate OwnerAllows(s: State, owner: Authority, caller: Authority) {
    owner.WorkerOwned() ==> caller == owner && Live(s, owner)
  }

  function CreateBuffer(s: State, p: BufferParams): (r: Step<Buffer>)
    ensures LeavesGrants(s, r.state) && LeavesWorkers(s, r.state)
  {
    if p.size > 0 && p.alignment == 0 then Step(s, Err(InvalidArgument))
    else if |s.buffers| >= s.limits.buffers then Step(s, Err(ResourceLimit))
    else if p.authority.WorkerOwned() && !Live(s, p.authority) then Step(s, Err(StaleBoot))
    else
      var id, now := s.nextId + 1, s.freshness + 1;
      var b := Buffer(id, 1, p.authority, p.domain, p.size, p.alignment, p.device, 0, p.locality, Unregistered, 0, 0,
                      Active, p.support, p.provenance, now, p.name);
      Step(s.(nextId := id, freshness := now, buffers := s.buffers[id := b]), Ok(b))
  }

  function AdvanceBufferGeneration(s: State, id: nat, caller: Authority): Step<Buffer> {
    if id !in s.buffers then Step(s, Err(NotFound))
    else if !OwnerAllows(s, s.buffers[id].authority, caller) then Step(s, Err(StaleBoot))
    else
      var now := s.freshness + 1;
      var b := s.buffers[id].(generation := s.buffers[id].generation + 1, freshness := now);
      Step(InvalidateBuffer(s.(freshness := now, buffers := s.buffers[id := b]), id), Ok(b))
  }

  function RetireBuffer(s: State, id: nat, caller: Authority): Step<()> {
    if id !in s.buffers then Step(s, Err(NotFound))
    else if !OwnerAllows(s, s.buffers[id].authority, caller) then Step(s, Err(StaleBoot))
    else
      var now := s.freshness + 1;
      var b := s.buffers[id].(lifecycle := RetiredBuffer, freshness := now);
      Step(InvalidateBuffer(s.(freshness := now, buffers := s.buffers[id := b]), id), Ok(()))
  }

  function AddDevice(s: State, p: DeviceParams): (r: Step<Device>)
    ensures LeavesGrants(s, r.state) && LeavesWorkers(s, r.state)
  {
    if p.authority.WorkerOwned() && !Live(s, p.authority) then Step(s, Err(StaleBoot))
    else
      var id, now := s.nextId + 1, s.freshness + 1;
      var d := Device(id, 1, p.name, p.computeCapability, p.peerMemorySupported, p.support, p.provenance, p.authority,
                      now);
      Step(s.(nextId := id, freshness := now, devices := s.devices[id := d]), Ok(d))
  }

  function AddEndpoint(s: State, p: EndpointParams): (r: Step<Endpoint>)
    ensures LeavesGrants(s, r.state) && LeavesWorkers(s, r.state)
  {
    if |s.endpoints| >= s.limits.endpoints then Step(s, Err(ResourceLimit))
    else if p.authority.WorkerOwned() && !Live(s, p.authority) then Step(s, Err(StaleBoot))
    else
      var id, now := s.nextId + 1, s.freshness + 1;
      var e := Endpoint(id, 1, p.endpointClass, p.name, p.topologyHint, p.healthy, p.provider, p.support, p.provenance,
                        p.authority, now);
      Step(s.(nextId := id, freshness := now, endpoints := s.endpoints[id := e]), Ok(e))
  }

  function AdvanceEndpointGeneration(s: State, id: nat, caller: Authority): Step<Endpoint> {
    if id !in s.endpoints then Step(s, Err(NotFound))
    else if !OwnerAllows(s, s.endpoints[id].authority, caller) then Step(s, Err(StaleBoot))
    else
      var now := s.freshness + 1;
      var e := s.endpoints[id].(generation := s.endpoints[id].generation + 1, freshness := now);
      Step(InvalidateEndpoint(s.(freshness := now, endpoints := s.endpoints[id := e]), id), Ok(e))
  }

  function SetEndpointHealth(s: State, id: nat, healthy: bool, caller: Authority): (r: Step<()>)
    ensures LeavesGrants(s, r.state) && LeavesWorkers(s, r.state)
  {
    if id !in s.endpoints then Step(s, Err(NotFound))
    else if !OwnerAllows(s, s.endpoints[id].authority, caller) then Step(s, Err(StaleBoot))
    else
      var now := s.freshness + 1;
      var e := s.endpoints[id].(healthy := healthy, freshness := now);
      Step(s.(freshness := now, endpoints := s.endpoints[id := e]), Ok(()))
  }

  function AddNic(s: State, n: Nic): (r: State)
    ensures LeavesGrants(s, r) && LeavesWorkers(s, r)
  {
    var id := if n.id != 0 then n.id else s.nextId + 1;
    var nic := n.(id := id, generation := if n.generation == 0 then 1 else n.generation, freshness := s.freshness + 1);
    s.(nextId := if n.id != 0 then s.nextId else id, freshness := s.freshness + 1, nics := s.nics[id := nic])
  }

  function AddStorage(s: State, e: StorageEndpoint): (r: State)
    ensures LeavesGrants(s, r) && LeavesWorkers(s, r)
  {
    var id := if e.id != 0 then e.id else s.nextId + 1;
    var st := e.(id := id, generation := if e.generation == 0 then 1 else e.generation, freshness := s.freshness + 1);
    s.(nextId := if e.id != 0 then s.nextId else id, freshness := s.freshness + 1, storage := s.storage[id := st])
  }

  // ---------------------------------------------------------------------
  // Providers and capabilities
  // ---------------------------------------------------------------------

  function AddProvider(s: State, p: ProviderParams, slot: Option<nat>): (r: Step<Provider>)
    requires IsNamed(s.providers, p.name, slot)
    ensures LeavesGrants(s, r.state) && LeavesWorkers(s, r.state)
  {
    if p.name == [] then Step(s, Err(InvalidArgument))
    else if slot.Some? then
      var v := s.providers[slot.value].(available := p.available, support := p.support, provenance := p.provenance);
      Step(s.(providers := s.providers[slot.value := v]), Ok(v))
    else
      var id := s.nextId + 1;
      var v := Provider(id, p.name, p.available, p.support, p.provenance);
      Step(s.(nextId := id, providers := s.providers[id := v]), Ok(v))
  }

  /** A republished observation keeps its slot and takes a new id. */
  function PublishCapability(s: State, p: CapabilityParams, slot: Option<nat>): (r: Step<Capability>)
    requires IsObservation(s.capabilities, p.provider, p.capability, slot)
    ensures LeavesGrants(s, r.state) && LeavesWorkers(s, r.state)
  {
    if p.authority.WorkerOwned() && !Live(s, p.authority) then Step(s, Err(StaleBoot))
    else
      var id, now := s.nextId + 1, s.freshness + 1;
      var c := Capability(id, p.provider, p.capability, p.value, p.support, p.provenance, p.authority, now);
      var key := if slot.Some? then slot.value else id;
      Step(s.(nextId := id, freshness := now, capabilities := s.capabilities[key := c]), Ok(c))
  }

  function RevokeCapability(s: State, provider: Text, capability: Text, caller: Authority,
                            slot: Option<nat>): (r: Step<()>)
    requires IsObservation(s.capabilities, provider, capability, slot)
    ensures LeavesGrants(s, r.state) && LeavesWorkers(s, r.state)
  {
    if slot.None? then Step(s, Ok(()))
    else if !OwnerAllows(s, s.capabilities[slot.value].authority, caller) then Step(s, Err(StaleBoot))
    else Step(s.(capabilities := s.capabilities - {slot.value}), Ok(()))
  }

  // ---------------------------------------------------------------------
  // Registration
  // ---------------------------------------------------------------------

  /** The checks a registration request must pass before the pair's history is looked at. */
  function RegisterRejection(s: State, p: RegisterParams): (r: Option<ErrorCode>)
    ensures r.None? ==> p.buffer in s.buffers && p.endpoint in s.endpoints
  {
    if p.buffer !in s.buffers then Some(InvalidBufferError)
    else if !s.buffers[p.buffer].lifecycle.Active? then Some(InvalidBufferError)
    else if p.endpoint !in s.endpoints then Some(NotFound)
    else if s.endpoints[p.endpoint].support.Unsupported? then Some(RegistrationFailedError)
    else if |s.registrations| >= s.limits.registrations then Some(ResourceLimit)
    else if p.authority.epoch != s.epoch then Some(StaleEpoch)
    else if p.authority.WorkerOwned() && !Live(s, p.authority) then Some(StaleBoot)
    else if s.buffers[p.buffer].authority.WorkerOwned() && s.buffers[p.buffer].authority != p.authority then
      Some(RegistrationFailedError)
    else None
  }

  /** The existing registration already grants exactly this request. */
  predicate AlreadyGranted(p: RegisterParams, b: Buffer, e: Endpoint, r: Registration) {
    && r.state.Registered?
    && r.bufferGeneration == b.generation && r.endpointGeneration == e.generation
    && r.authority == p.authority && r.provider == p.provider
  }

  function RegisterBuffer(s: State, p: RegisterParams, grant: BackendGrant, latest: Option<nat>): Step<Registration>
    requires IsLatest(s.registrations, p.buffer, p.endpoint, latest)
  {
    var rejection := RegisterRejection(s, p);
    if rejection.Some? then Step(s, Err(rejection.value))
    else if latest.None? then Attach(s, p, grant, 1)
    else
      var r := s.registrations[latest.value];
      if AlreadyGranted(p, s.buffers[p.buffer], s.endpoints[p.endpoint], r) then Step(s, Ok(r.(duplicated := true)))
      else if r.state.Registered? || r.state.Registering? then Step(s, Err(RegistrationFailedError))
      else if r.state.Deregistering? then
        Attach(s.(registrations := Retire(s.registrations, r.id)), p, grant, r.generation + 1)
      else Attach(s, p, grant, r.generation + 1)
  }

  /** Ask the backend, then record. */
  function Attach(s: State, p: RegisterParams, grant: BackendGrant, generation: nat): (r: Step<Registration>)
    requires p.buffer in s.buffers && p.endpoint in s.endpoints
    ensures LeavesWorkers(s, r.state)
  {
    if grant.Refused? then Step(s, Err(RegistrationFailedError)) else NewRegistration(s, p, grant, generation)
  }

  function Retire(rs: map<nat, Registration>, id: nat): map<nat, Registration> {
    map k | k in rs :: if rs[k].id == id then rs[k].(state := Retired) else rs[k]
  }

  /** The id a new registration gets: the backend's, or a fresh one when it gives none. */
  function RegistrationId(s: State, grant: BackendGrant): nat {
    if grant.Granted? && grant.id != 0 then grant.id else s.nextId + 1
  }

  function NewRegistration(s: State, p: RegisterParams, grant: BackendGrant, generation: nat): (r: Step<Registration>)
    requires p.buffer in s.buffers && p.endpoint in s.endpoints
    ensures LeavesWorkers(s, r.state)
  {
    var b, e := s.buffers[p.buffer], s.endpoints[p.endpoint];
    var id := RegistrationId(s, grant);
    var r := Registration(
      id, generation, b.id, b.generation, e.id, e.generation, p.provider, p.authority, Registered,
      if grant.Granted? then grant.support else p.support, if grant.Granted? then grant.provenance else p.provenance,
      false, s.freshness + 1, p.requiredCapabilities, if grant.Granted? then grant.handle else None);
    var b' := b.(registrationState := Registered, registrationId := id, registrationGeneration := generation,
                 freshness := s.freshness + 2);
    Step(s.(nextId := if grant.Granted? && grant.id != 0 then s.nextId else id,
            freshness := s.freshness + 2,
            registrations := s.registrations[id := r], buffers := s.buffers[p.buffer := b']), Ok(r))
  }

  function DeregisterBuffer(s: State, id: nat, caller: Authority, latest: Option<nat>): (r: Step<()>)
    requires id in s.registrations ==>
               IsLatest(s.registrations, s.registrations[id].buffer, s.registrations[id].endpoint, latest)
    ensures LeavesWorkers(s, r.state)
  {
    if id !in s.registrations then Step(s, Err(NotFound))
    else
      var r := s.registrations[id];
      if r.state.Retired? || r.state.Unregistered? then Step(s, Ok(()))
      else if r.authority.WorkerOwned() && !Live(s, r.authority) then
        Step(s.(registrations := s.registrations[id := r.(state := Retired)]), Ok(()))
      else if r.authority.WorkerOwned() && caller != r.authority then Step(s, Err(StaleBoot))
      else if latest.Some? && s.registrations[latest.value].id != r.id then Step(s, Err(StaleGeneration))
      else Step(Release(s, id), Ok(()))
  }

  predicate IsNoted(buffers: map<nat, Buffer>, r: Registration) {
    r.buffer in buffers && buffers[r.buffer].registrationId == r.id
  }

  /** A buffer that notes the registration loses its note. */
  function Unnoted(buffers: map<nat, Buffer>, r: Registration, now: nat): map<nat, Buffer> {
    if IsNoted(buffers, r) then
      buffers[r.buffer := buffers[r.buffer].(registrationState := Unregistered, registrationId := 0,
                                             registrationGeneration := 0, freshness := now)]
    else buffers
  }

  /** Retire a registration and, if it is the one its buffer notes, clear the note. */
  function Release(s: State, id: nat): (s': State)
    requires id in s.registrations
    ensures LeavesWorkers(s, s')
  {
    var r, now := s.registrations[id], s.freshness + 1;
    s.(freshness := if IsNoted(s.buffers, r) then now + 1 else now,
       registrations := s.registrations[id := r.(state := Retired, handle := None, freshness := now)],
       buffers := Unnoted(s.buffers, r, now + 1))
  }

  // ---------------------------------------------------------------------
  // Evidence and planning
  // ---------------------------------------------------------------------

  /** ev is a snapshot of s for the request, its tables listed in some order. */
  ghost predicate IsEvidence(s: State, req: Request, ev: Evidence) {
    && ev.epoch == s.epoch
    && ev.source == (if req.source in s.buffers then s.buffers[req.source] else NIL_BUFFER)
    && ev.destination == (if req.destination in s.endpoints then s.endpoints[req.destination] else NIL_ENDPOINT)
    && ev.device == (if ev.source.device != 0 && ev.source.device in s.devices then s.devices[ev.source.device]
                     else NIL_DEVICE)
    && Lists(s.registrations, ev.registrations) && Lists(s.capabilities, ev.capabilities)
    && Lists(s.devices, ev.devices) && Lists(s.endpoints, ev.endpoints) && Lists(s.providers, ev.providers)
    && Lists(Incarnations(s.workers), ev.liveWorkers)
  }

  function ErrorFor(e: PathEligibility): ErrorCode {
    match e
    case RegistrationRequired => RegistrationRequiredError
    case RegistrationStale => RegistrationStaleError
    case EndpointStale => StaleEndpoint
    case DeviceStale => StaleGeneration
    case TopologyIncompatible => TopologyIncompatibleError
    case ProviderUnavailable => ProviderUnavailableError
    case NoValidPath => NoValidPathError
    case PathRevalidationRequired => RevalidationRequiredError
    case InsufficientEvidence => DirectUnavailable
    case PolicyRejected => FallbackDisallowed
    case InvalidBuffer => InvalidBufferError
    case _ => UnsupportedError
  }

  predicate Plannable(d: Decision) {
    IsDirect(d.eligibility) || (d.eligibility.FallbackRequired? && d.fallbackAvailable)
  }

  /** The second half of planning: recheck the snapshot's generations, then record the plan.
      `chosen` is the newest REGISTERED registration of the pair at this moment. */
  function CommitPlan(s: State, req: Request, d: Decision, chosen: Option<nat>, explanation: Text): (r: Step<Plan>)
    requires req.source in s.buffers && req.destination in s.endpoints ==>
               IsLatest(RegisteredOnly(s.registrations), s.buffers[req.source].id, s.endpoints[req.destination].id,
                        chosen)
    ensures LeavesWorkers(s, r.state)
  {
    if !Plannable(d) then Step(s, Err(ErrorFor(d.eligibility)))
    else if |s.plans| >= s.limits.plans then Step(s, Err(ResourceLimit))
    else if req.source !in s.buffers then Step(s, Err(StaleBuffer))
    else if s.buffers[req.source].generation != d.sourceGeneration then Step(s, Err(StaleGeneration))
    else if req.destination !in s.endpoints then Step(s, Err(StaleEndpoint))
    else if s.endpoints[req.destination].generation != d.destinationGeneration then Step(s, Err(StaleEndpoint))
    else if IsDirect(d.eligibility) && chosen.None? then Step(s, Err(RegistrationStaleError))
    else
      var reg := if chosen.Some? then Some(s.registrations[chosen.value]) else None;
      var plan := PlanFor(s, req, d, reg, explanation);
      Step(FilePlan(s, req, plan), Ok(plan))
  }

  /** A staged plan brings its staging buffer with it. */
  function FilePlan(s: State, req: Request, plan: Plan): (s': State)
    requires req.source in s.buffers
    ensures s' == s.(plans := s.plans[plan.id := plan], nextId := s'.nextId, freshness := s'.freshness,
                     buffers := s'.buffers)
    ensures LeavesWorkers(s, s')
  {
    if plan.Direct() then s.(nextId := s.nextId + 2, plans := s.plans[plan.id := plan])
    else
      var staging := StagingBuffer(s, req);
      s.(nextId := s.nextId + 3, freshness := s.freshness + 1, buffers := s.buffers[staging.id := staging],
         plans := s.plans[plan.id := plan])
  }

  function StagingBuffer(s: State, req: Request): Buffer
    requires req.source in s.buffers
  {
    Staging(s.nextId + 3, s.buffers[req.source].authority, req.size, s.freshness + 1)
  }

  function Staging(id: nat, owner: Authority, size: nat, now: nat): Buffer {
    Buffer(id, 1, owner, HostPinned, size, 64, 0, 0, Local, Unregistered, 0, 0, Active, Synthetic, SyntheticFixture,
           now,
           STAGING_NAME)
  }

  // "fallback_staging"
  const STAGING_NAME: Text := [102, 97, 108, 108, 98, 97, 99, 107, 95, 115, 116, 97, 103, 105, 110, 103]

  function Stages(tmp: nat, src: nat, dst: nat, d: Decision): seq<TransferStage> {
    if IsDirect(d.eligibility) then
      [TransferStage(d.directClass, d.support, d.provenance, src, 0, dst, true)]
    else
      var c := if d.selectedFallback.Some? then d.selectedFallback.value.pathClass else GpuToHostPinned;
      [TransferStage(c, Synthetic, SyntheticFixture, src, tmp, 0, false),
       TransferStage(c, Synthetic, SyntheticFixture, tmp, 0, dst, false)]
  }

  function PlanFor(s: State, req: Request, d: Decision, reg: Option<Registration>, explanation: Text): Plan
    requires req.source in s.buffers && req.destination in s.endpoints
  {
    var src, dst := s.buffers[req.source], s.endpoints[req.destination];
    Plan(s.nextId + 1, s.nextId + 2, 1, src.id, src.generation, dst.id, dst.generation,
         if reg.Some? then reg.value.id else 0,
         if reg.Some? then reg.value.generation else 0,
         if reg.Some? then reg.value.bufferGeneration else 0,
         req.policy, req.size, d.eligibility, d.support, d.provenance,
         if IsDirect(d.eligibility) then 1 else 2, Stages(s.nextId + 3, src.id, dst.id, d), explanation,
         s.epoch, src.authority, true)
  }

  // ---------------------------------------------------------------------
  // Transfers
  // ---------------------------------------------------------------------

  function BeginRejection(s: State, plan: Plan, caller: Authority): Option<ErrorCode> {
    if !plan.authoritative then Some(StaleGeneration)
    else if plan.epoch != s.epoch then Some(StaleEpoch)
    else if caller.WorkerOwned() && !Live(s, caller) then Some(StaleBoot)
    else if caller.WorkerOwned() && plan.authority.WorkerOwned() && caller != plan.authority then Some(StaleBoot)
    else if |s.attempts| >= s.limits.attempts then Some(ResourceLimit)
    else if plan.source !in s.buffers || s.buffers[plan.source].generation != plan.sourceGeneration then
      Some(StaleGeneration)
    else if plan.destination !in s.endpoints ||
            s.endpoints[plan.destination].generation != plan.destinationGeneration then
      Some(StaleEndpoint)
    else if plan.registrationId != 0 && !RegistrationHolds(s, plan) then Some(RegistrationStaleError)
    else None
  }

  predicate RegistrationHolds(s: State, plan: Plan) {
    && plan.registrationId in s.registrations
    && s.registrations[plan.registrationId].generation == plan.registrationGeneration
    && s.registrations[plan.registrationId].state.Registered?
  }

  function NewAttempt(s: State, plan: Plan, caller: Authority, run: BackendRun): Attempt {
    var a := Attempt(s.nextId + 1, plan.id, plan.generation, InFlight, 0, s.epoch, caller, false, plan.expectedBytes,
                     false, false, [], plan.support, plan.provenance);
    match run
    case NoRun => a
    case RunError => a.(state := TransferFailed)
    case Outcome(state, bytes, checked, passed, means, support, provenance) =>
      a.(state := if state.TransferFailed? then TransferFailed else InFlight, bytes := bytes,
         integrityChecked := checked,
         integrityPassed := passed, means := means, support := support, provenance := provenance)
  }

  function BeginTransfer(s: State, planId: nat, caller: Authority, run: BackendRun): (r: Step<Attempt>)
    ensures LeavesGrants(s, r.state) && LeavesWorkers(s, r.state)
  {
    if planId !in s.plans then Step(s, Err(NotFound))
    else
      var rejection := BeginRejection(s, s.plans[planId], caller);
      if rejection.Some? then Step(s, Err(rejection.value))
      else
        var a := NewAttempt(s, s.plans[planId], caller, run);
        Step(s.(nextId := s.nextId + 1, attempts := s.attempts[a.id := a]), Ok(a))
  }

  function ReceiptFor(a: Attempt, state: TransferState, integrity: bool): Receipt {
    Receipt(a.id, a.planGeneration, state, a.bytes, integrity, a.support, a.provenance, a.means, a.epoch)
  }

  /** A worker may settle only its own attempts, and only while it lives. */
  predicate MaySettle(s: State, a: Attempt, caller: Authority) {
    caller.WorkerOwned() ==> Live(s, caller) && caller == a.authority
  }

  function Settle(s: State, id: nat, a: Attempt, receipt: Receipt): (r: State)
    ensures LeavesGrants(s, r) && LeavesWorkers(s, r)
  {
    s.(attempts := s.attempts[id := a], receipts := s.receipts[id := receipt])
  }

  function RecordVerification(s: State, a: Attempt, passed: bool): (r: State)
    ensures LeavesGrants(s, r) && LeavesWorkers(s, r)
  {
    var v := Verification(s.nextId + 1, a.id, passed, a.bytes, a.support, a.means);
    s.(nextId := s.nextId + 1, verifications := s.verifications[v.id := v])
  }

  function CompleteTransfer(s: State, id: nat, caller: Authority): (r: Step<Receipt>)
    ensures LeavesGrants(s, r.state) && LeavesWorkers(s, r.state)
  {
    if id !in s.attempts then Step(s, Err(NotFound))
    else
      var a := s.attempts[id];
      if a.completionCommitted && id in s.receipts then Step(s, Ok(s.receipts[id]))
      else if a.state.Cancelled? then Step(s, Err(CancelledError))
      else if a.state.TransferFailed? then
        if id in s.receipts then Step(s, Ok(s.receipts[id]))
        else
          var r := ReceiptFor(a, TransferFailed, false);
          Step(s.(receipts := s.receipts[id := r]), Ok(r))
      else if !MaySettle(s, a, caller) then Step(s, Err(StaleBoot))
      else if a.planId !in s.plans || !s.plans[a.planId].authoritative then Step(s, Err(StaleGeneration))
      else Conclude(s, id, a)
  }

  /** The outcome of an attempt whose caller and plan are in order: its integrity, then its byte count. */
  function Conclude(s: State, id: nat, a: Attempt): (r: Step<Receipt>)
    ensures LeavesGrants(s, r.state) && LeavesWorkers(s, r.state)
  {
    if a.integrityChecked && !a.integrityPassed then
      var a' := a.(state := TransferFailed, completionCommitted := true);
      Step(RecordVerification(Settle(s, id, a', ReceiptFor(a', TransferFailed, false)), a', false),
           Err(IntegrityFailure))
    else
      var done := a.submittedBytes == 0 || a.bytes == a.submittedBytes;
      var a' := a.(state := if done then Completed else TransferFailed, completionCommitted := true);
      var r := ReceiptFor(a', a'.state, a'.integrityChecked);
      var s' := Settle(s, id, a', r);
      Step(if done && a.integrityChecked then RecordVerification(s', a', true) else s', Ok(r))
  }

  function CancelTransfer(s: State, id: nat, caller: Authority): (r: Step<Receipt>)
    ensures LeavesGrants(s, r.state) && LeavesWorkers(s, r.state)
  {
    if id !in s.attempts then Step(s, Err(NotFound))
    else
      var a := s.attempts[id];
      if a.completionCommitted || a.state.Completed? || a.state.Verified? then Step(s, Err(CancelledError))
      else if !MaySettle(s, a, caller) then Step(s, Err(StaleBoot))
      else
        var a' := a.(state := Cancelled, completionCommitted := false);
        var r := ReceiptFor(a', Cancelled, false);
        Step(Settle(s, id, a', r), Ok(r))
  }

  /** "explicit" */
  const EXPLICIT: Text := [101, 120, 112, 108, 105, 99, 105, 116]

  function VerifyTransfer(s: State, id: nat, passed: bool, bytesChecked: nat): (r: Step<Verification>)
    ensures LeavesGrants(s, r.state) && LeavesWorkers(s, r.state)
  {
    if id !in s.attempts then Step(s, Err(NotFound))
    else
      var a := s.attempts[id];
      var v := Verification(s.nextId + 1, a.id, passed, bytesChecked, a.support,
                            if a.means == [] then EXPLICIT else a.means);
      Step(s.(nextId := s.nextId + 1, verifications := s.verifications[v.id := v]), Ok(v))
  }
}
