/** Decides whether a data path may be used directly, from a snapshot of evidence. */
module PathPlanner {
  import opened Types

  datatype Request = Request(source: nat, destination: nat, direction: Direction, policy: PathPolicy, size: nat)

  datatype Evidence = Evidence(
    source: Buffer, destination: Endpoint, device: Device,
    registrations: seq<Registration>, capabilities: seq<Capability>, devices: seq<Device>,
    endpoints: seq<Endpoint>, providers: seq<Provider>, liveWorkers: seq<(nat, nat)>, epoch: nat)

  datatype Requirement =
    | SourceBuffer | Size | DestinationEndpoint | DestinationSupported | DestinationHealthy | DestinationGeneration
    | SourceMemoryDomain | SourceIsAccelerator | SourceDevice | ProviderAvailable | DirectCapability
    | RegistrationCurrent | RegistrationAuthority | Alignment

  datatype Finding = Finding(requirement: Requirement, satisfied: bool)

  datatype Candidate = Candidate(
    pathClass: PathClass, direct: bool, support: Support, provenance: Provenance, stageCount: nat)

  datatype Decision = Decision(
    eligibility: PathEligibility, directEligibility: PathEligibility, directClass: PathClass,
    support: Support, provenance: Provenance, degraded: bool, fallbackAvailable: bool, fallbackDisallowed: bool,
    sourceGeneration: nat, destinationGeneration: nat, findings: seq<Finding>,
    directCandidates: seq<Candidate>, fallbackCandidates: seq<Candidate>, selectedFallback: Option<Candidate>)

  // Stand-ins for records that were not found.
  const NIL_BUFFER := Buffer(0, 0, NO_AUTHORITY, UnknownDomain, 0, 1, 0, 0, UnknownLocality, Unregistered, 0, 0,
                             Active, UnknownSupport, SyntheticFixture, 0, [])
  const NIL_ENDPOINT :=
    Endpoint(0, 0, UnknownEndpoint, [], [], false, 0, UnknownSupport, SyntheticFixture, NO_AUTHORITY, 0)
  const NIL_DEVICE := Device(0, 0, [], [], false, UnknownSupport, SyntheticFixture, NO_AUTHORITY, 0)

  const RDMA: Text := [114, 100, 109, 97]
  const STORAGE: Text := [115, 116, 111, 114, 97, 103, 101]
  const CUDA: Text := [99, 117, 100, 97]
  const HOST: Text := [104, 111, 115, 116]
  const DIRECT_NIC: Text := [100, 105, 114, 101, 99, 116, 95, 110, 105, 99]
  const DIRECT_STORAGE: Text := [100, 105, 114, 101, 99, 116, 95, 115, 116, 111, 114, 97, 103, 101]
  const PEER_MEMORY: Text := [112, 101, 101, 114, 95, 109, 101, 109, 111, 114, 121]
  const DIRECT_HOST: Text := [100, 105, 114, 101, 99, 116, 95, 104, 111, 115, 116]
  const HOST_STAGING: Text := [104, 111, 115, 116, 95, 115, 116, 97, 103, 105, 110, 103]
  const TRUE: Text := [116, 114, 117, 101]

  // ---------------------------------------------------------------------
  // Classification
  // ---------------------------------------------------------------------

  predicate IsGpuMemory(d: MemoryDomain) { d.CudaDevice? || d.CudaManaged? || d.RegisteredGpuMemory? }
  predicate IsHostPinned(d: MemoryDomain) { d.HostPinned? || d.RegisteredHostMemory? }

  function ProviderFor(c: EndpointClass): Text {
    match c
    case NicEndpoint => RDMA
    case StorageClass => STORAGE
    case PeerDevice => CUDA
    case _ => HOST
  }

  function CapabilityNameFor(c: EndpointClass): Text {
    match c
    case NicEndpoint => DIRECT_NIC
    case StorageClass => DIRECT_STORAGE
    case PeerDevice => PEER_MEMORY
    case _ => DIRECT_HOST
  }

  function DirectClass(d: Direction, c: EndpointClass): PathClass {
    match c
    case StorageClass => if d.GpuToPeer? then GpuToStorageDirect else StorageToGpuDirect
    case PeerDevice => GpuToGpuDirect
    case _ => if d.GpuToPeer? then GpuToNicDirect else NicToGpuDirect
  }

  function FallbackClass(d: Direction, c: EndpointClass): PathClass {
    match c
    case NicEndpoint => if d.GpuToPeer? then GpuToHostStagedToNic else NicToHostStagedToGpu
    case StorageClass => if d.GpuToPeer? then GpuToHostStagedToStorage else StorageToHostStagedToGpu
    case _ => if d.GpuToPeer? then GpuToHostPinned else HostPinnedToGpu
  }

  // ---------------------------------------------------------------------
  // Lookups, in evidence order
  // ---------------------------------------------------------------------

  /** The first registration of the pair that no later one exceeds in generation. */
  function NewestRegistration(rs: seq<Registration>, b: nat, e: nat): (best: Option<Registration>)
    ensures best.None? <==> forall r :: r in rs ==> !r.Joins(b, e)
    ensures best.Some? ==> best.value in rs && best.value.Joins(b, e)
    ensures best.Some? ==> forall r :: r in rs && r.Joins(b, e) ==> r.generation <= best.value.generation
  {
    if rs == [] then None
    else
      var best, r := NewestRegistration(rs[..|rs| - 1], b, e), rs[|rs| - 1];
      assert rs == rs[..|rs| - 1] + [r];
      if r.Joins(b, e) && (best.None? || r.generation > best.value.generation) then Some(r) else best
  }

  function NewestEndpoint(es: seq<Endpoint>, id: nat): (best: Option<Endpoint>)
    ensures best.None? <==> forall e :: e in es ==> e.id != id
    ensures best.Some? ==> best.value in es && best.value.id == id
    ensures best.Some? ==> forall e :: e in es && e.id == id ==> e.generation <= best.value.generation
  {
    if es == [] then None
    else
      var best, e := NewestEndpoint(es[..|es| - 1], id), es[|es| - 1];
      assert es == es[..|es| - 1] + [e];
      if e.id == id && (best.None? || e.generation > best.value.generation) then Some(e) else best
  }

  function NewestDevice(ds: seq<Device>, id: nat): (best: Option<Device>)
    ensures best.None? <==> forall d :: d in ds ==> d.id != id
    ensures best.Some? ==> best.value in ds && best.value.id == id
    ensures best.Some? ==> forall d :: d in ds && d.id == id ==> d.generation <= best.value.generation
  {
    if ds == [] then None
    else
      var best, d := NewestDevice(ds[..|ds| - 1], id), ds[|ds| - 1];
      assert ds == ds[..|ds| - 1] + [d];
      if d.id == id && (best.None? || d.generation > best.value.generation) then Some(d) else best
  }

  function FirstCapability(cs: seq<Capability>, provider: Text, capability: Text): (found: Option<Capability>)
    ensures found.None? <==> forall c :: c in cs ==> !(c.provider == provider && c.capability == capability)
    ensures found.Some? ==>
              found.value in cs && found.value.provider == provider && found.value.capability == capability
  {
    if cs == [] then None
    else if cs[0].provider == provider && cs[0].capability == capability then Some(cs[0])
    else FirstCapability(cs[1..], provider, capability)
  }

  predicate IsStagingEvidence(c: Capability, epoch: nat) {
    c.capability == HOST_STAGING && c.value == TRUE && !c.support.Unsupported? && c.authority.epoch == epoch
  }

  predicate StagingEvidenced(ev: Evidence) {
    exists c :: c in ev.capabilities && IsStagingEvidence(c, ev.epoch)
  }

  predicate ProviderUsable(ev: Evidence, name: Text) {
    exists p :: p in ev.providers && p.name == name && p.available && !p.support.Unsupported?
  }

  predicate AuthorityLive(a: Authority, ev: Evidence) {
    a.epoch == ev.epoch && (a.WorkerOwned() ==> (a.worker, a.boot) in ev.liveWorkers)
  }

  predicate DestinationUsable(ev: Evidence) {
    ev.destination.id != 0 && ev.destination.healthy && !ev.destination.endpointClass.UnknownEndpoint?
  }

  // ---------------------------------------------------------------------
  // The requirements of a direct path
  // ---------------------------------------------------------------------

  /** One requirement: how it is reported when met and when not, what its failure means,
      and what support and provenance a decision that stops here carries. */
  datatype Gate = Gate(
    reported: Requirement, met: bool, failedAs: Requirement, outcome: PathEligibility,
    support: Support, provenance: Provenance)

  function CapabilityFor(ev: Evidence): Option<Capability> {
    var c := ev.destination.endpointClass;
    FirstCapability(ev.capabilities, ProviderFor(c), CapabilityNameFor(c))
  }

  function RegistrationFor(ev: Evidence): Option<Registration> {
    NewestRegistration(ev.registrations, ev.source.id, ev.destination.id)
  }

  predicate CapabilityProven(cap: Option<Capability>) {
    cap.Some? && cap.value.value == TRUE && !cap.value.support.Unsupported?
  }

  predicate GenerationsMatch(r: Registration, ev: Evidence) {
    r.bufferGeneration == ev.source.generation && r.endpointGeneration == ev.destination.generation
  }

  /** A current registration made under an authority that is still live. */
  predicate RegistrationUsable(reg: Option<Registration>, ev: Evidence) {
    reg.Some? && reg.value.state.Registered? && GenerationsMatch(reg.value, ev) &&
    AuthorityLive(reg.value.authority, ev)
  }

  function RegistrationOutcome(reg: Option<Registration>, ev: Evidence): PathEligibility {
    if reg.None? then RegistrationRequired
    else if !reg.value.state.Registered? || !GenerationsMatch(reg.value, ev) then RegistrationStale
    else PathRevalidationRequired
  }

  function SupportOf(reg: Option<Registration>): Support {
    if reg.Some? then reg.value.support else UnknownSupport
  }

  function ProvenanceOf(reg: Option<Registration>): Provenance {
    if reg.Some? then reg.value.provenance else SyntheticFixture
  }

  predicate EndpointIsNewest(ev: Evidence) {
    var newest := NewestEndpoint(ev.endpoints, ev.destination.id);
    newest.Some? ==> newest.value.generation == ev.destination.generation
  }

  predicate DeviceIsNewest(ev: Evidence) {
    var newest := NewestDevice(ev.devices, ev.device.id);
    ev.device.id != 0 && (newest.Some? ==> newest.value.generation == ev.device.generation)
  }

  /** What the lookups make of the evidence; the decision depends on nothing else. */
  datatype Facts = Facts(
    source: Buffer, destination: Endpoint, endpointNewest: bool, deviceNewest: bool, providerUsable: bool,
    capability: Option<Capability>, registration: Option<Registration>, registrationUsable: bool,
    registrationOutcome: PathEligibility, staging: bool)

  function Weigh(ev: Evidence): Facts {
    var reg := RegistrationFor(ev);
    Facts(ev.source, ev.destination, EndpointIsNewest(ev), DeviceIsNewest(ev),
          ProviderUsable(ev, ProviderFor(ev.destination.endpointClass)), CapabilityFor(ev), reg,
          RegistrationUsable(reg, ev), RegistrationOutcome(reg, ev), DestinationUsable(ev) && StagingEvidenced(ev))
  }

  function GatesOn(req: Request, f: Facts): (gates: seq<Gate>)
    ensures |gates| == 12
  {
    var src, dest, cap, reg := f.source, f.destination, f.capability, f.registration;
    [ Gate(SourceBuffer, src.id != 0 && src.lifecycle.Active?, SourceBuffer, InvalidBuffer, UnknownSupport,
           SyntheticFixture),
      Gate(Size, req.size <= src.size, Size, NoValidPath, UnknownSupport, SyntheticFixture),
      Gate(DestinationEndpoint, dest.id != 0 && !dest.endpointClass.UnknownEndpoint?, DestinationEndpoint, NoValidPath,
           UnknownSupport, SyntheticFixture),
      Gate(DestinationSupported, !dest.support.Unsupported?, DestinationSupported, DirectUnsupported,
           Unsupported, dest.provenance),
      Gate(DestinationHealthy, dest.healthy, DestinationHealthy, EndpointStale, UnknownSupport, dest.provenance),
      Gate(DestinationGeneration, f.endpointNewest, DestinationGeneration, EndpointStale,
           UnknownSupport, dest.provenance),
      Gate(SourceIsAccelerator, IsGpuMemory(src.domain),
           if IsHostPinned(src.domain) then SourceIsAccelerator else SourceMemoryDomain, DirectUnsupported,
           UnknownSupport, dest.provenance),
      Gate(SourceDevice, f.deviceNewest, SourceDevice, DeviceStale, src.support, dest.provenance),
      Gate(ProviderAvailable, f.providerUsable, ProviderAvailable, ProviderUnavailable, Unsupported, dest.provenance),
      Gate(DirectCapability, CapabilityProven(cap), DirectCapability, InsufficientEvidence,
           if cap.Some? then cap.value.support else Unsupported, dest.provenance),
      Gate(RegistrationCurrent, f.registrationUsable,
           if f.registrationOutcome.PathRevalidationRequired? then RegistrationAuthority else RegistrationCurrent,
           f.registrationOutcome,
           if cap.Some? then cap.value.support else Unsupported,
           if cap.Some? then cap.value.provenance else dest.provenance),
      Gate(Alignment, src.alignment >= 64 && req.size % src.alignment == 0, Alignment, DirectUnsupported,
           SupportOf(reg), ProvenanceOf(reg)) ]
  }

  function Gates(req: Request, ev: Evidence): (gates: seq<Gate>)
    ensures |gates| == 12
  {
    GatesOn(req, Weigh(ev))
  }

  /** How many leading requirements are met. */
  function Passed(gates: seq<Gate>): (k: nat)
    ensures k <= |gates|
    ensures forall i :: 0 <= i < k ==> gates[i].met
    ensures k < |gates| ==> !gates[k].met
  {
    if gates == [] || !gates[0].met then 0 else 1 + Passed(gates[1..])
  }

  /** The met requirements up to the first failure, then that failure. */
  function Findings(gates: seq<Gate>, k: nat): seq<Finding>
    requires k <= |gates|
  {
    MetFindings(gates, k) + (if k < |gates| then [Finding(gates[k].failedAs, false)] else [])
  }

  function MetFindings(gates: seq<Gate>, k: nat): seq<Finding>
    requires k <= |gates|
  {
    seq(k, i requires 0 <= i < k => Finding(gates[i].reported, true))
  }

  function StagingCandidate(req: Request, dest: Endpoint): Candidate {
    Candidate(FallbackClass(req.direction, dest.endpointClass), false, Synthetic, SyntheticFixture, 2)
  }

  /** Direct when every requirement is met; staged when allowed and evidenced; otherwise refused. */
  function DecideOn(req: Request, f: Facts): Decision {
    var gates := GatesOn(req, f);
    var k := Passed(gates);
    var direct := if k < 12 then gates[k].outcome
                  else if SupportOf(f.registration).Real? then DirectAllowed else DirectAllowedDegraded;
    var pathClass := DirectClass(req.direction, f.destination.endpointClass);
    var support := if k < 12 then gates[k].support else SupportOf(f.registration);
    var provenance := if k < 12 then gates[k].provenance else ProvenanceOf(f.registration);
    var fallback := k < 12 && f.staging && !req.policy.DirectOnly?;
    Decision(
      if fallback then FallbackRequired else direct, direct, pathClass, support, provenance,
      direct.DirectAllowedDegraded?, fallback, k < 12 && f.staging && req.policy.DirectOnly?,
      f.source.generation, f.destination.generation, Findings(gates, k),
      if k < 12 then [] else [Candidate(pathClass, true, support, provenance, 1)],
      if fallback then [StagingCandidate(req, f.destination)] else [],
      if fallback then Some(StagingCandidate(req, f.destination)) else None)
  }

  function Decide(req: Request, ev: Evidence): Decision { DecideOn(req, Weigh(ev)) }

  // ---------------------------------------------------------------------
  // The planner as it runs: one pass over the gates, updating the decision
  // ---------------------------------------------------------------------

  method FindRegistration(rs: seq<Registration>, b: nat, e: nat) returns (latest: Option<Registration>)
    ensures latest == NewestRegistration(rs, b, e)
  {
    latest := None;
    for i := 0 to |rs|
      invariant latest == NewestRegistration(rs[..i], b, e)
    {
      assert rs[..i + 1][..i] == rs[..i];
      if rs[i].Joins(b, e) && (latest.None? || rs[i].generation > latest.value.generation) {
        latest := Some(rs[i]);
      }
    }
    assert rs[..|rs|] == rs;
  }

  method LatestEndpoint(es: seq<Endpoint>, id: nat) returns (best: Option<Endpoint>)
    ensures best == NewestEndpoint(es, id)
  {
    best := None;
    for i := 0 to |es|
      invariant best == NewestEndpoint(es[..i], id)
    {
      assert es[..i + 1][..i] == es[..i];
      if es[i].id == id && (best.None? || es[i].generation > best.value.generation) {
        best := Some(es[i]);
      }
    }
    assert es[..|es|] == es;
  }

  method LatestDevice(ds: seq<Device>, id: nat) returns (best: Option<Device>)
    ensures best == NewestDevice(ds, id)
  {
    best := None;
    for i := 0 to |ds|
      invariant best == NewestDevice(ds[..i], id)
    {
      assert ds[..i + 1][..i] == ds[..i];
      if ds[i].id == id && (best.None? || ds[i].generation > best.value.generation) {
        best := Some(ds[i]);
      }
    }
    assert ds[..|ds|] == ds;
  }

  method FindCapability(cs: seq<Capability>, provider: Text, capability: Text) returns (found: Option<Capability>)
    ensures found == FirstCapability(cs, provider, capability)
  {
    for i := 0 to |cs|
      invariant FirstCapability(cs, provider, capability) == FirstCapability(cs[i..], provider, capability)
    {
      if cs[i].provider == provider && cs[i].capability == capability { return Some(cs[i]); }
    }
    return None;
  }

  method HostStagingAvailable(ev: Evidence) returns (found: bool)
    ensures found == StagingEvidenced(ev)
  {
    for i := 0 to |ev.capabilities|
      invariant forall j :: 0 <= j < i ==> !IsStagingEvidence(ev.capabilities[j], ev.epoch)
    {
      if IsStagingEvidence(ev.capabilities[i], ev.epoch) { return true; }
    }
    return false;
  }

  method FindProvider(ev: Evidence, name: Text) returns (found: bool)
    ensures found == ProviderUsable(ev, name)
  {
    for i := 0 to |ev.providers|
      invariant forall j :: 0 <= j < i ==>
                  !(ev.providers[j].name == name && ev.providers[j].available && !ev.providers[j].support.Unsupported?)
    {
      var p := ev.providers[i];
      if p.name == name && p.available && !p.support.Unsupported? { return true; }
    }
    return false;
  }

  method CheckAuthority(a: Authority, ev: Evidence) returns (live: bool)
    ensures live == AuthorityLive(a, ev)
  {
    if a.epoch != ev.epoch { return false; }
    if !a.WorkerOwned() { return true; }
    for i := 0 to |ev.liveWorkers|
      invariant forall j :: 0 <= j < i ==> ev.liveWorkers[j] != (a.worker, a.boot)
    {
      if ev.liveWorkers[i].0 == a.worker && ev.liveWorkers[i].1 == a.boot { return true; }
    }
    return false;
  }

  datatype Running = Running(direct: PathEligibility, findings: seq<Finding>, support: Support,
                             provenance: Provenance) {
    predicate Open() { direct.PathUnsupported? }

    function Met(r: Requirement): Running { this.(findings := findings + [Finding(r, true)]) }

    function Rejected(r: Requirement, outcome: PathEligibility): Running {
      this.(direct := outcome, findings := findings + [Finding(r, false)])
    }
  }

  /** The running decision after the first k gates have been looked at; `support` and `provenance`
      are what is recorded as long as they are all met. */
  ghost predicate After(gates: seq<Gate>, k: nat, support: Support, provenance: Provenance, now: Running)
    requires k <= |gates|
  {
    var p := Passed(gates);
    if p < k then
      && !now.Open() && now.direct == gates[p].outcome && now.findings == Findings(gates, p)
      && now.support == gates[p].support && now.provenance == gates[p].provenance
    else
      now == Running(PathUnsupported, MetFindings(gates, k), support, provenance)
  }

  lemma PassedBeyond(gates: seq<Gate>, k: nat)
    requires k < |gates| && Passed(gates) >= k
    ensures gates[k].met <==> Passed(gates) > k
  {
  }

  /** Looking at gate k: a closed decision stays, an open one records the requirement. */
  lemma NextGate(gates: seq<Gate>, k: nat, now: Running, next: Running,
                 support: Support, provenance: Provenance, support': Support, provenance': Provenance)
    requires k < |gates| && After(gates, k, support, provenance, now)
    requires !now.Open() ==> next == now
    requires now.Open() && gates[k].met ==>
               next == Running(PathUnsupported, now.findings + [Finding(gates[k].reported, true)], support',
                               provenance')
    requires now.Open() && !gates[k].met ==>
               next == Running(gates[k].outcome, now.findings + [Finding(gates[k].failedAs, false)],
                               gates[k].support, gates[k].provenance)
    requires !gates[k].outcome.PathUnsupported?
    ensures After(gates, k + 1, support', provenance', next)
    ensures next.Open() ==> next.support == support' && next.provenance == provenance'
  {
    if Passed(gates) >= k { PassedBeyond(gates, k); }
  }

  lemma OpenSoFar(gates: seq<Gate>, k: nat, support: Support, provenance: Provenance, now: Running)
    requires k <= |gates| && After(gates, k, support, provenance, now)
    ensures now.Open() ==> now.support == support && now.provenance == provenance
  {
  }

  lemma NoGateYet(gates: seq<Gate>, now: Running)
    requires now == Running(PathUnsupported, [], now.support, now.provenance)
    ensures After(gates, 0, now.support, now.provenance, now)
  {
    assert now.findings == MetFindings(gates, 0);
  }

  method CheckRequest(req: Request, ev: Evidence, ghost gates: seq<Gate>) returns (now: Running)
    requires gates == Gates(req, ev)
    ensures After(gates, 3, UnknownSupport, ev.destination.provenance, now)
  {
    hide After, Passed, EndpointIsNewest, DeviceIsNewest, ProviderUsable, StagingEvidenced, RegistrationUsable;
    hide CapabilityProven;
    hide CapabilityFor, RegistrationFor, RegistrationOutcome;
    var src, dest := ev.source, ev.destination;
    ghost var prov := dest.provenance;
    now := Running(PathUnsupported, [], UnknownSupport, SyntheticFixture);
    NoGateYet(gates, now);

    var next := now;
    if src.id == 0 || !src.lifecycle.Active? {
      next := now.Rejected(SourceBuffer, InvalidBuffer);
    } else {
      next := now.Met(SourceBuffer);
    }
    NextGate(gates, 0, now, next, UnknownSupport, SyntheticFixture, UnknownSupport, SyntheticFixture);

    now := next;
    if now.Open() {
      if req.size > src.size {
        next := now.Rejected(Size, NoValidPath);
      } else {
        next := now.Met(Size);
      }
    }
    NextGate(gates, 1, now, next, UnknownSupport, SyntheticFixture, UnknownSupport, SyntheticFixture);

    now := next;
    if now.Open() {
      if dest.id == 0 || dest.endpointClass.UnknownEndpoint? {
        next := now.Rejected(DestinationEndpoint, NoValidPath);
      } else {
        next := now.Met(DestinationEndpoint).(provenance := dest.provenance);
      }
    }
    NextGate(gates, 2, now, next, UnknownSupport, SyntheticFixture, UnknownSupport, prov);
    now := next;
  }

  method CheckDestination(req: Request, ev: Evidence, ghost gates: seq<Gate>, before: Running) returns (now: Running)
    requires gates == Gates(req, ev)
    requires After(gates, 3, UnknownSupport, ev.destination.provenance, before)
    ensures After(gates, 6, UnknownSupport, ev.destination.provenance, now)
  {
    hide After, Passed, StagingEvidenced;
    var dest := ev.destination;
    ghost var prov := dest.provenance;
    now := before;
    OpenSoFar(gates, 3, UnknownSupport, ev.destination.provenance, now);

    var next := now;
    if now.Open() {
      if dest.support.Unsupported? {
        next := now.Rejected(DestinationSupported, DirectUnsupported).(support := Unsupported);
      } else {
        next := now.Met(DestinationSupported);
      }
    }
    NextGate(gates, 3, now, next, UnknownSupport, prov, UnknownSupport, prov);

    now := next;
    if now.Open() {
      if !dest.healthy {
        next := now.Rejected(DestinationHealthy, EndpointStale);
      } else {
        next := now.Met(DestinationHealthy);
      }
    }
    NextGate(gates, 4, now, next, UnknownSupport, prov, UnknownSupport, prov);

    now := next;
    if now.Open() {
      var latest := LatestEndpoint(ev.endpoints, dest.id);
      if latest.Some? && latest.value.generation != dest.generation {
        next := now.Rejected(DestinationGeneration, EndpointStale);
      } else {
        next := now.Met(DestinationGeneration);
      }
    }
    NextGate(gates, 5, now, next, UnknownSupport, prov, UnknownSupport, prov);
    now := next;
  }

  method CheckSourceMemory(req: Request, ev: Evidence, ghost gates: seq<Gate>, before: Running) returns (now: Running)
    requires gates == Gates(req, ev)
    requires After(gates, 6, UnknownSupport, ev.destination.provenance, before)
    ensures After(gates, 9, ev.source.support, ev.destination.provenance, now)
  {
    hide After, Passed, StagingEvidenced;
    var src := ev.source;
    ghost var prov := ev.destination.provenance;
    now := before;
    OpenSoFar(gates, 6, UnknownSupport, ev.destination.provenance, now);

    var next := now;
    if now.Open() {
      if !IsGpuMemory(src.domain) && !IsHostPinned(src.domain) {
        next := now.Rejected(SourceMemoryDomain, DirectUnsupported);
      } else if !IsGpuMemory(src.domain) {
        next := now.Rejected(SourceIsAccelerator, DirectUnsupported);
      } else {
        next := now.Met(SourceIsAccelerator).(support := src.support);
      }
    }
    NextGate(gates, 6, now, next, UnknownSupport, prov, src.support, prov);

    now := next;
    if now.Open() {
      if ev.device.id == 0 {
        next := now.Rejected(SourceDevice, DeviceStale);
      } else {
        var latest := LatestDevice(ev.devices, ev.device.id);
        if latest.Some? && latest.value.generation != ev.device.generation {
          next := now.Rejected(SourceDevice, DeviceStale);
        } else {
          next := now.Met(SourceDevice);
        }
      }
    }
    NextGate(gates, 7, now, next, src.support, prov, src.support, prov);

    now := next;
    if now.Open() {
      var found := FindProvider(ev, ProviderFor(ev.destination.endpointClass));
      if !found {
        next := now.Rejected(ProviderAvailable, ProviderUnavailable).(support := Unsupported);
      } else {
        next := now.Met(ProviderAvailable);
      }
    }
    NextGate(gates, 8, now, next, src.support, prov, src.support, prov);
    now := next;
  }

  method CheckGrants(req: Request, ev: Evidence, ghost gates: seq<Gate>, before: Running) returns (now: Running)
    requires gates == Gates(req, ev)
    requires After(gates, 9, ev.source.support, ev.destination.provenance, before)
    ensures After(gates, 12, SupportOf(RegistrationFor(ev)), ProvenanceOf(RegistrationFor(ev)), now)
  {
    hide After, Passed, StagingEvidenced;
    var src, dest := ev.source, ev.destination;
    ghost var reg0, cap0 := RegistrationFor(ev), CapabilityFor(ev);
    ghost var support := if cap0.Some? then cap0.value.support else Unsupported;
    ghost var prov := if cap0.Some? then cap0.value.provenance else dest.provenance;
    now := before;
    OpenSoFar(gates, 9, ev.source.support, ev.destination.provenance, now);

    var next := now;
    if now.Open() {
      var cap := FindCapability(ev.capabilities, ProviderFor(dest.endpointClass),
                                CapabilityNameFor(dest.endpointClass));
      if cap.None? || cap.value.value != TRUE || cap.value.support.Unsupported? {
        next := now.Rejected(DirectCapability, InsufficientEvidence)
                   .(support := if cap.Some? then cap.value.support else Unsupported);
      } else {
        next := now.Met(DirectCapability).(support := cap.value.support, provenance := cap.value.provenance);
      }
    }
    NextGate(gates, 9, now, next, src.support, dest.provenance, support, prov);

    now := next;
    if now.Open() {
      var reg := FindRegistration(ev.registrations, src.id, dest.id);
      if reg.None? {
        next := now.Rejected(RegistrationCurrent, RegistrationRequired);
      } else if !reg.value.state.Registered? {
        next := now.Rejected(RegistrationCurrent, RegistrationStale);
      } else if reg.value.bufferGeneration != src.generation || reg.value.endpointGeneration != dest.generation {
        next := now.Rejected(RegistrationCurrent, RegistrationStale);
      } else {
        var live := CheckAuthority(reg.value.authority, ev);
        if !live {
          next := now.Rejected(RegistrationAuthority, PathRevalidationRequired);
        } else {
          next := now.Met(RegistrationCurrent).(support := reg.value.support, provenance := reg.value.provenance);
        }
      }
    }
    NextGate(gates, 10, now, next, support, prov, SupportOf(reg0), ProvenanceOf(reg0));

    now := next;
    if now.Open() {
      if src.alignment < 64 || req.size % src.alignment != 0 {
        next := now.Rejected(Alignment, DirectUnsupported);
      } else {
        next := now.Met(Alignment);
      }
    }
    NextGate(gates, 11, now, next, SupportOf(reg0), ProvenanceOf(reg0), SupportOf(reg0), ProvenanceOf(reg0));
    now := next;
  }

  method Evaluate(req: Request, ev: Evidence) returns (d: Decision)
    ensures d == Decide(req, ev)
  {
    ghost var gates := Gates(req, ev);
    var now := CheckRequest(req, ev, gates);
    now := CheckDestination(req, ev, gates, now);
    now := CheckSourceMemory(req, ev, gates, now);
    now := CheckGrants(req, ev, gates, now);

    var direct := now.direct;
    if now.Open() {
      direct := if now.support.Real? then DirectAllowed else DirectAllowedDegraded;
    }
    var pathClass := DirectClass(req.direction, ev.destination.endpointClass);
    d := Decision(direct, direct, pathClass, now.support, now.provenance, direct.DirectAllowedDegraded?, false, false,
                  ev.source.generation, ev.destination.generation, now.findings, [], [], None);
    if IsDirect(direct) {
      d := d.(directCandidates := [Candidate(pathClass, true, now.support, now.provenance, 1)]);
    } else {
      var staging := HostStagingAvailable(ev);
      if req.policy.DirectOnly? {
        d := d.(fallbackDisallowed := staging && DestinationUsable(ev));
      } else if DestinationUsable(ev) && staging {
        var c := StagingCandidate(req, ev.destination);
        d := d.(eligibility := FallbackRequired, fallbackCandidates := [c], selectedFallback := Some(c),
                fallbackAvailable := true);
      }
    }
  }

  // ---------------------------------------------------------------------
  // What a decision means
  // ---------------------------------------------------------------------

  /** Everything a direct path needs, as one condition on the evidence. */
  predicate DirectPathValid(req: Request, ev: Evidence) {
    var src, dest := ev.source, ev.destination;
    && src.id != 0 && src.lifecycle.Active? && req.size <= src.size && IsGpuMemory(src.domain)
    && src.alignment >= 64 && req.size % src.alignment == 0
    && DestinationUsable(ev) && !dest.support.Unsupported?
    && EndpointIsNewest(ev) && DeviceIsNewest(ev)
    && ProviderUsable(ev, ProviderFor(dest.endpointClass))
    && CapabilityProven(CapabilityFor(ev))
    && RegistrationUsable(RegistrationFor(ev), ev)
  }

  lemma GatesMetIsValid(req: Request, ev: Evidence)
    requires forall i :: 0 <= i < 12 ==> Gates(req, ev)[i].met
    ensures DirectPathValid(req, ev)
  {
    hide EndpointIsNewest, DeviceIsNewest, ProviderUsable, StagingEvidenced, RegistrationUsable, CapabilityProven;
    hide CapabilityFor, RegistrationFor, RegistrationOutcome, ProviderFor, CapabilityNameFor;
    var gates := Gates(req, ev);
    assert gates[0].met && gates[1].met && gates[2].met && gates[3].met && gates[4].met && gates[5].met;
    assert gates[6].met && gates[7].met && gates[8].met && gates[9].met && gates[10].met && gates[11].met;
  }

  lemma ValidMeetsGates(req: Request, ev: Evidence, i: nat)
    requires DirectPathValid(req, ev) && i < 12
    ensures Gates(req, ev)[i].met
  {
    hide EndpointIsNewest, DeviceIsNewest, ProviderUsable, StagingEvidenced, RegistrationUsable, CapabilityProven;
    hide CapabilityFor, RegistrationFor, RegistrationOutcome, ProviderFor, CapabilityNameFor;
  }

  lemma AllGatesMet(req: Request, ev: Evidence)
    ensures Passed(Gates(req, ev)) == 12 <==> DirectPathValid(req, ev)
  {
    hide Gates, DirectPathValid;
    var gates := Gates(req, ev);
    if Passed(gates) == 12 { GatesMetIsValid(req, ev); }
    if DirectPathValid(req, ev) && Passed(gates) < 12 { ValidMeetsGates(req, ev, Passed(gates)); }
  }

  lemma FailuresAreNotDirect(req: Request, ev: Evidence, k: nat)
    requires k < 12
    ensures !IsDirect(Gates(req, ev)[k].outcome) && !Gates(req, ev)[k].outcome.FallbackRequired?
  {
  }

  /** Direct exactly when every requirement holds, and undegraded exactly when the registration is also real. */
  lemma DirectIffValid(req: Request, ev: Evidence)
    ensures IsDirect(Decide(req, ev).eligibility) <==> DirectPathValid(req, ev)
    ensures IsDirect(Decide(req, ev).directEligibility) <==> DirectPathValid(req, ev)
    ensures Decide(req, ev).eligibility.DirectAllowed? <==>
              DirectPathValid(req, ev) && RegistrationFor(ev).value.support.Real?
  {
    AllGatesMet(req, ev);
    var k := Passed(Gates(req, ev));
    if k < 12 { FailuresAreNotDirect(req, ev, k); }
  }

  /** A refusal names the first requirement that fails, after the ones that hold, and carries its outcome. */
  lemma RefusalNamesFirstFailure(req: Request, ev: Evidence) returns (k: nat)
    requires !DirectPathValid(req, ev)
    ensures k < 12 && !Gates(req, ev)[k].met
    ensures forall i :: 0 <= i < k ==> Gates(req, ev)[i].met
    ensures Decide(req, ev).directEligibility == Gates(req, ev)[k].outcome
    ensures |Decide(req, ev).findings| == k + 1
    ensures forall i :: 0 <= i <= k ==> (Decide(req, ev).findings[i].satisfied <==> i < k)
    ensures Decide(req, ev).findings[k] == Finding(Gates(req, ev)[k].failedAs, false)
  {
    AllGatesMet(req, ev);
    k := Passed(Gates(req, ev));
  }

  /** Staging is offered exactly when direct fails, policy admits it, and endpoint and evidence support it. */
  lemma FallbackIffStageable(req: Request, ev: Evidence)
    ensures Decide(req, ev).eligibility.FallbackRequired? <==>
              !DirectPathValid(req, ev) && !req.policy.DirectOnly? && DestinationUsable(ev) && StagingEvidenced(ev)
    ensures Decide(req, ev).fallbackAvailable <==> Decide(req, ev).eligibility.FallbackRequired?
  {
    AllGatesMet(req, ev);
    var k := Passed(Gates(req, ev));
    if k < 12 { FailuresAreNotDirect(req, ev, k); }
  }

  // ---------------------------------------------------------------------
  // The order of evidence does not matter
  // ---------------------------------------------------------------------

  ghost predicate SameItems<T(!new)>(a: seq<T>, b: seq<T>) {
    forall x :: x in a <==> x in b
  }

  /** The same evidence, listed in any order. */
  ghost predicate SameEvidence(a: Evidence, b: Evidence) {
    && a.source == b.source && a.destination == b.destination && a.device == b.device && a.epoch == b.epoch
    && SameItems(a.registrations, b.registrations) && SameItems(a.capabilities, b.capabilities)
    && SameItems(a.devices, b.devices) && SameItems(a.endpoints, b.endpoints)
    && SameItems(a.providers, b.providers) && SameItems(a.liveWorkers, b.liveWorkers)
  }

  ghost predicate DistinctGenerations(rs: seq<Registration>) {
    forall r, q :: r in rs && q in rs && r.Joins(q.buffer, q.endpoint) && r.generation == q.generation ==> r == q
  }

  ghost predicate DistinctObservations(cs: seq<Capability>) {
    forall c, d :: c in cs && d in cs && c.provider == d.provider && c.capability == d.capability ==> c == d
  }

  lemma NewestRegistrationIgnoresOrder(a: seq<Registration>, c: seq<Registration>, b: nat, e: nat)
    requires SameItems(a, c) && DistinctGenerations(a)
    ensures NewestRegistration(a, b, e) == NewestRegistration(c, b, e)
  {
    var x, y := NewestRegistration(a, b, e), NewestRegistration(c, b, e);
    if x.Some? {
      assert x.value in c;
      assert y.value in a;
    }
  }

  lemma FirstCapabilityIgnoresOrder(a: seq<Capability>, b: seq<Capability>, provider: Text, capability: Text)
    requires SameItems(a, b) && DistinctObservations(a)
    ensures FirstCapability(a, provider, capability) == FirstCapability(b, provider, capability)
  {
    var x, y := FirstCapability(a, provider, capability), FirstCapability(b, provider, capability);
    if x.Some? {
      assert x.value in b;
      assert y.value in a;
    }
  }

  lemma NewestGenerationsIgnoreOrder(a: Evidence, b: Evidence)
    requires SameEvidence(a, b)
    ensures EndpointIsNewest(a) == EndpointIsNewest(b) && DeviceIsNewest(a) == DeviceIsNewest(b)
  {
    var x, y := NewestEndpoint(a.endpoints, a.destination.id), NewestEndpoint(b.endpoints, a.destination.id);
    if x.Some? { assert x.value in b.endpoints; }
    if y.Some? { assert y.value in a.endpoints; }
    var p, q := NewestDevice(a.devices, a.device.id), NewestDevice(b.devices, a.device.id);
    if p.Some? { assert p.value in b.devices; }
    if q.Some? { assert q.value in a.devices; }
  }

  lemma ExistentialsIgnoreOrder(a: Evidence, b: Evidence, name: Text, who: Authority)
    requires SameEvidence(a, b)
    ensures StagingEvidenced(a) == StagingEvidenced(b)
    ensures ProviderUsable(a, name) == ProviderUsable(b, name)
    ensures AuthorityLive(who, a) == AuthorityLive(who, b)
  {
  }

  /** On evidence without ties the decision is a function of what is evidenced, not of its order. */
  lemma DecisionIgnoresOrder(req: Request, a: Evidence, b: Evidence)
    requires SameEvidence(a, b) && DistinctGenerations(a.registrations) && DistinctObservations(a.capabilities)
    ensures Decide(req, a) == Decide(req, b)
  {
    var c := a.destination.endpointClass;
    NewestRegistrationIgnoresOrder(a.registrations, b.registrations, a.source.id, a.destination.id);
    FirstCapabilityIgnoresOrder(a.capabilities, b.capabilities, ProviderFor(c), CapabilityNameFor(c));
    NewestGenerationsIgnoreOrder(a, b);
    var reg := RegistrationFor(a);
    ExistentialsIgnoreOrder(a, b, ProviderFor(c), if reg.Some? then reg.value.authority else NO_AUTHORITY);
    assert Weigh(a) == Weigh(b);
  }
}
