/** Each record of the state file as a row of fields, in file order, and what recovery makes of a row. */
module Records {
  import opened Types
  import opened Fields
  import opened PathPlanner

  // ---------------------------------------------------------------------
  // Enumerators, in declaration order
  // ---------------------------------------------------------------------

  const DOMAINS := [HostPageable, HostPinned, CudaDevice, CudaManaged, PeerDeviceMemory, RegisteredGpuMemory,
                    RegisteredHostMemory, StorageVisibleBuffer, NicVisibleBuffer, UnknownDomain]
  const PROVENANCES := [CudaRuntime, CudaDriver, Nvml, OperatingSystem, RdmaProvider, Verbs, DmaBuf, StorageBackend,
                        NvidiaDriver, Benchmark, Persisted, Derived, SyntheticFixture]
  const SUPPORTS := [Real, Synthetic, Unsupported, UnknownSupport]
  const STANDINGS := [Unregistered, Registering, Registered, RevalidationRequired, Deregistering, Retired,
                      RegistrationFailed, RegistrationUnsupported]
  const LIFECYCLES := [Active, RetiredBuffer]
  const ELIGIBILITIES :=
    [DirectAllowed, DirectAllowedDegraded, DirectUnsupported, RegistrationRequired, RegistrationStale,
                          EndpointStale, DeviceStale, TopologyIncompatible, ProviderUnavailable, FallbackRequired,
                          NoValidPath, PathRevalidationRequired, InsufficientEvidence, PolicyRejected, InvalidBuffer,
                          PathUnsupported]
  const POLICIES := [DirectOnly, PreferDirect, AllowStaging, BestAvailable]
  const CLASSES := [NicEndpoint, StorageClass, PeerDevice, HostEndpoint, UnknownEndpoint]
  const LOCALITIES := [Local, Remote, UnknownLocality]

  /** The position of an enumerator in its declaration. */
  function TagOf<E(==)>(all: seq<E>, e: E): (tag: nat)
    ensures tag <= |all|
    ensures e in all ==> tag < |all| && all[tag] == e
  {
    if all == [] || all[0] == e then 0 else 1 + TagOf(all[1..], e)
  }

  function Enumerator<E>(all: seq<E>, row: Row, i: nat): E
    requires |all| > 0
  {
    if i < |row| && row[i].Tag? && row[i].value < |all| then all[row[i].value] else all[0]
  }

  function NumAt(row: Row, i: nat): nat {
    if i < |row| && (row[i].Num? || row[i].Count?) then row[i].value else 0
  }

  predicate FlagAt(row: Row, i: nat) { i < |row| && row[i].Flag? && row[i].on }

  function TextAt(row: Row, i: nat): Text { if i < |row| && row[i].Str? then row[i].text else [] }
  function TextsAt(row: Row, i: nat): seq<Text> { if i < |row| && row[i].Strs? then row[i].texts else [] }

  function AuthorityAt(row: Row, i: nat): Authority { Authority(NumAt(row, i), NumAt(row, i + 1), NumAt(row, i + 2)) }

  // ---------------------------------------------------------------------
  // Schemas
  // ---------------------------------------------------------------------

  const SUPPORT := TagKind(4)
  const PROVENANCE := TagKind(13)

  const HEADER_SCHEMA: Schema := [NumKind, NumKind, NumKind]
  const BUFFER_SCHEMA: Schema :=
    [NumKind, NumKind, TagKind(10), NumKind, NumKind, NumKind, NumKind, TagKind(3), SUPPORT, PROVENANCE, TagKind(2),
     StrKind]
  const DEVICE_SCHEMA: Schema := [NumKind, NumKind, StrKind, StrKind, FlagKind, SUPPORT, PROVENANCE]
  const ENDPOINT_SCHEMA: Schema :=
    [NumKind, NumKind, TagKind(5), StrKind, StrKind, FlagKind, NumKind, SUPPORT, PROVENANCE]
  const NIC_SCHEMA: Schema := [NumKind, NumKind, StrKind, StrKind, FlagKind, FlagKind, NumKind, SUPPORT, PROVENANCE]
  const STORAGE_SCHEMA: Schema := [NumKind, NumKind, StrKind, StrKind, StrKind, FlagKind, NumKind, SUPPORT, PROVENANCE]
  const PROVIDER_SCHEMA: Schema := [NumKind, StrKind, FlagKind, SUPPORT, PROVENANCE]
  const CAPABILITY_SCHEMA: Schema :=
    [NumKind, StrKind, StrKind, StrKind, SUPPORT, PROVENANCE, NumKind, NumKind, NumKind, NumKind]
  const REGISTRATION_SCHEMA: Schema :=
    [NumKind, NumKind, NumKind, NumKind, NumKind, NumKind, NumKind, NumKind, NumKind, NumKind, TagKind(8), SUPPORT,
     PROVENANCE, FlagKind, NumKind, StrsKind]
  const PLAN_SCHEMA: Schema :=
    [NumKind, NumKind, NumKind, NumKind, NumKind, NumKind, NumKind, NumKind, NumKind, NumKind, TagKind(4), NumKind,
     TagKind(16), SUPPORT, PROVENANCE, CountKind, StrKind, NumKind, NumKind, NumKind, NumKind]

  lemma PlanSchemaIsNotEmpty()
    ensures PLAN_SCHEMA != []
  {
    assert |PLAN_SCHEMA| == 21;
  }

  // ---------------------------------------------------------------------
  // Rows
  // ---------------------------------------------------------------------

  function SupportField(s: Support): Field { Tag(TagOf(SUPPORTS, s)) }
  function ProvenanceField(p: Provenance): Field { Tag(TagOf(PROVENANCES, p)) }

  function BufferRow(b: Buffer): Row {
    [Num(b.id), Num(b.generation), Tag(TagOf(DOMAINS, b.domain)), Num(b.size), Num(b.alignment), Num(b.device),
     Num(b.deviceGeneration), Tag(TagOf(LOCALITIES, b.locality)), SupportField(b.support),
     ProvenanceField(b.provenance), Tag(TagOf(LIFECYCLES, b.lifecycle)), Str(b.name)]
  }

  function BufferOf(row: Row): Buffer {
    NIL_BUFFER.(
      id := NumAt(row, 0), generation := NumAt(row, 1), domain := Enumerator(DOMAINS, row, 2), size := NumAt(row, 3),
      alignment := NumAt(row, 4), device := NumAt(row, 5), deviceGeneration := NumAt(row, 6),
      locality := Enumerator(LOCALITIES, row, 7), support := Enumerator(SUPPORTS, row, 8),
      provenance := Enumerator(PROVENANCES, row, 9), lifecycle := Enumerator(LIFECYCLES, row, 10),
      name := TextAt(row, 11))
  }

  function DeviceRow(d: Device): Row {
    [Num(d.id), Num(d.generation), Str(d.name), Str(d.computeCapability), Flag(d.peerMemorySupported),
     SupportField(d.support), ProvenanceField(d.provenance)]
  }

  function DeviceOf(row: Row): Device {
    Device(NumAt(row, 0), NumAt(row, 1), TextAt(row, 2), TextAt(row, 3), FlagAt(row, 4), Enumerator(SUPPORTS, row, 5),
           Enumerator(PROVENANCES, row, 6), NO_AUTHORITY, 0)
  }

  function EndpointRow(e: Endpoint): Row {
    [Num(e.id), Num(e.generation), Tag(TagOf(CLASSES, e.endpointClass)), Str(e.name), Str(e.topologyHint),
     Flag(e.healthy),
     Num(e.provider), SupportField(e.support), ProvenanceField(e.provenance)]
  }

  function EndpointOf(row: Row): Endpoint {
    Endpoint(NumAt(row, 0), NumAt(row, 1), Enumerator(CLASSES, row, 2), TextAt(row, 3), TextAt(row, 4), FlagAt(row, 5),
             NumAt(row, 6), Enumerator(SUPPORTS, row, 7), Enumerator(PROVENANCES, row, 8), NO_AUTHORITY, 0)
  }

  function NicRow(n: Nic): Row {
    [Num(n.id), Num(n.generation), Str(n.name), Str(n.locator), Flag(n.rdmaCapable), Flag(n.directPathCapable),
     Num(n.provider), SupportField(n.support), ProvenanceField(n.provenance)]
  }

  function NicOf(row: Row): Nic {
    Nic(NumAt(row, 0), NumAt(row, 1), TextAt(row, 2), TextAt(row, 3), FlagAt(row, 4), FlagAt(row, 5), NumAt(row, 6),
        Enumerator(SUPPORTS, row, 7), Enumerator(PROVENANCES, row, 8), NO_AUTHORITY, 0)
  }

  function StorageRow(e: StorageEndpoint): Row {
    [Num(e.id), Num(e.generation), Str(e.name), Str(e.backendName), Str(e.path), Flag(e.directPathCapable),
     Num(e.provider), SupportField(e.support), ProvenanceField(e.provenance)]
  }

  function StorageOf(row: Row): StorageEndpoint {
    StorageEndpoint(NumAt(row, 0), NumAt(row, 1), TextAt(row, 2), TextAt(row, 3), TextAt(row, 4), FlagAt(row, 5),
                    NumAt(row, 6), Enumerator(SUPPORTS, row, 7), Enumerator(PROVENANCES, row, 8), NO_AUTHORITY, 0)
  }

  function ProviderRow(p: Provider): Row {
    [Num(p.id), Str(p.name), Flag(p.available), SupportField(p.support), ProvenanceField(p.provenance)]
  }

  function ProviderOf(row: Row): Provider {
    Provider(NumAt(row, 0), TextAt(row, 1), FlagAt(row, 2), Enumerator(SUPPORTS, row, 3),
             Enumerator(PROVENANCES, row, 4))
  }

  function CapabilityRow(c: Capability): Row {
    [Num(c.id), Str(c.provider), Str(c.capability), Str(c.value), SupportField(c.support),
     ProvenanceField(c.provenance),
     Num(c.authority.worker), Num(c.authority.boot), Num(c.authority.epoch), Num(c.freshness)]
  }

  function CapabilityOf(row: Row): Capability {
    Capability(NumAt(row, 0), TextAt(row, 1), TextAt(row, 2), TextAt(row, 3), Enumerator(SUPPORTS, row, 4),
               Enumerator(PROVENANCES, row, 5), AuthorityAt(row, 6), NumAt(row, 9))
  }

  function RegistrationRow(r: Registration): Row {
    [Num(r.id), Num(r.generation), Num(r.buffer), Num(r.bufferGeneration), Num(r.endpoint), Num(r.endpointGeneration),
     Num(r.provider), Num(r.authority.worker), Num(r.authority.boot), Num(r.authority.epoch),
     Tag(TagOf(STANDINGS, r.state)),
     SupportField(r.support), ProvenanceField(r.provenance), Flag(r.duplicated), Num(r.freshness),
     Strs(r.requiredCapabilities)]
  }

  /** What was REGISTERED in another process must be revalidated in this one. */
  function Demoted(state: RegistrationState): RegistrationState {
    if state.Registered? then RevalidationRequired else state
  }

  function RegistrationOf(row: Row): Registration {
    Registration(NumAt(row, 0), NumAt(row, 1), NumAt(row, 2), NumAt(row, 3), NumAt(row, 4), NumAt(row, 5),
                 NumAt(row, 6),
                 AuthorityAt(row, 7), Demoted(Enumerator(STANDINGS, row, 10)), Enumerator(SUPPORTS, row, 11),
                 Enumerator(PROVENANCES, row, 12), FlagAt(row, 13), NumAt(row, 14), TextsAt(row, 15), None)
  }

  function PlanRow(p: Plan): Row {
    [Num(p.id), Num(p.pathGeneration), Num(p.generation), Num(p.source), Num(p.sourceGeneration), Num(p.destination),
     Num(p.destinationGeneration), Num(p.registrationId), Num(p.registrationGeneration),
     Num(p.registrationBufferGeneration),
     Tag(TagOf(POLICIES, p.policy)), Num(p.expectedBytes),
     Tag(TagOf(ELIGIBILITIES, p.eligibility)), SupportField(p.support),
     ProvenanceField(p.provenance), Count(p.copyCount), Str(p.explanation), Num(p.epoch), Num(p.authority.worker),
     Num(p.authority.boot), Num(p.authority.epoch)]
  }

  /** The field that the decoder reads into its own loop bound. */
  function CopyCount(row: Row): nat { NumAt(row, 15) }

  function PlanOf(row: Row): Plan {
    Plan(NumAt(row, 0), NumAt(row, 1), NumAt(row, 2), NumAt(row, 3), NumAt(row, 4), NumAt(row, 5), NumAt(row, 6),
         NumAt(row, 7), NumAt(row, 8), NumAt(row, 9), Enumerator(POLICIES, row, 10), NumAt(row, 11),
         Enumerator(ELIGIBILITIES, row, 12), Enumerator(SUPPORTS, row, 13), Enumerator(PROVENANCES, row, 14),
         CopyCount(row), [], TextAt(row, 16), NumAt(row, 17), AuthorityAt(row, 18), false)
  }

  // ---------------------------------------------------------------------
  // What survives of a record
  // ---------------------------------------------------------------------

  function DurableBuffer(b: Buffer): Buffer {
    b.(authority := NO_AUTHORITY, registrationState := Unregistered, registrationId := 0, registrationGeneration := 0,
       freshness := 0)
  }
  function DurableDevice(d: Device): Device { d.(authority := NO_AUTHORITY, freshness := 0) }
  function DurableEndpoint(e: Endpoint): Endpoint { e.(authority := NO_AUTHORITY, freshness := 0) }
  function DurableNic(n: Nic): Nic { n.(authority := NO_AUTHORITY, freshness := 0) }
  function DurableStorage(e: StorageEndpoint): StorageEndpoint { e.(authority := NO_AUTHORITY, freshness := 0) }
  function DurableRegistration(r: Registration): Registration { r.(state := Demoted(r.state), handle := None) }
  function DurablePlan(p: Plan): Plan { p.(stages := [], authoritative := false) }

  lemma TagReadsBack<E>(all: seq<E>, e: E, row: Row, i: nat)
    requires e in all && i < |row| && row[i] == Tag(TagOf(all, e))
    ensures Enumerator(all, row, i) == e
  {
  }

  lemma QualityReadsBack(s: Support, p: Provenance, row: Row, i: nat)
    requires i + 1 < |row| && row[i] == SupportField(s) && row[i + 1] == ProvenanceField(p)
    ensures Enumerator(SUPPORTS, row, i) == s && Enumerator(PROVENANCES, row, i + 1) == p
  {
    hide TagOf;
    AllSupports(s);
    AllProvenances(p);
    TagReadsBack(SUPPORTS, s, row, i);
    TagReadsBack(PROVENANCES, p, row, i + 1);
  }

  lemma AllSupports(s: Support)
    ensures s in SUPPORTS
  {
    assert SUPPORTS[0] == Real && SUPPORTS[1] == Synthetic && SUPPORTS[2] == Unsupported &&
           SUPPORTS[3] == UnknownSupport;
  }

  lemma AllProvenances(p: Provenance)
    ensures p in PROVENANCES
  {
    assert PROVENANCES[0] == CudaRuntime && PROVENANCES[1] == CudaDriver && PROVENANCES[2] == Nvml;
    assert PROVENANCES[3] == OperatingSystem && PROVENANCES[4] == RdmaProvider && PROVENANCES[5] == Verbs;
    assert PROVENANCES[6] == DmaBuf && PROVENANCES[7] == StorageBackend && PROVENANCES[8] == NvidiaDriver;
    assert PROVENANCES[9] == Benchmark && PROVENANCES[10] == Persisted && PROVENANCES[11] == Derived;
    assert PROVENANCES[12] == SyntheticFixture;
  }

  // Every record has the shape of its schema, and its row reads back as what survives of it.

  lemma BufferHasShape(b: Buffer)
    ensures RowHasShape(BufferRow(b), BUFFER_SCHEMA)
  {
    hide TagOf;
    AllSupports(b.support);
    AllProvenances(b.provenance);
    AllDomains(b.domain);
    AllLocalities(b.locality);
    AllLifecycles(b.lifecycle);
  }

  lemma DeviceHasShape(d: Device)
    ensures RowHasShape(DeviceRow(d), DEVICE_SCHEMA)
  {
    hide TagOf;
    AllSupports(d.support);
    AllProvenances(d.provenance);
  }

  lemma EndpointHasShape(e: Endpoint)
    ensures RowHasShape(EndpointRow(e), ENDPOINT_SCHEMA)
  {
    hide TagOf;
    AllSupports(e.support);
    AllProvenances(e.provenance);
    AllClasses(e.endpointClass);
  }

  lemma NicHasShape(n: Nic)
    ensures RowHasShape(NicRow(n), NIC_SCHEMA)
  {
    hide TagOf;
    AllSupports(n.support);
    AllProvenances(n.provenance);
  }

  lemma StorageHasShape(e: StorageEndpoint)
    ensures RowHasShape(StorageRow(e), STORAGE_SCHEMA)
  {
    hide TagOf;
    AllSupports(e.support);
    AllProvenances(e.provenance);
  }

  lemma ProviderHasShape(p: Provider)
    ensures RowHasShape(ProviderRow(p), PROVIDER_SCHEMA)
  {
    hide TagOf;
    AllSupports(p.support);
    AllProvenances(p.provenance);
  }

  lemma CapabilityHasShape(c: Capability)
    ensures RowHasShape(CapabilityRow(c), CAPABILITY_SCHEMA)
  {
    hide TagOf;
    AllSupports(c.support);
    AllProvenances(c.provenance);
  }

  lemma RegistrationHasShape(r: Registration)
    ensures RowHasShape(RegistrationRow(r), REGISTRATION_SCHEMA)
  {
    hide TagOf;
    AllSupports(r.support);
    AllProvenances(r.provenance);
    AllStandings(r.state);
  }

  lemma PlanHasShape(p: Plan)
    ensures RowHasShape(PlanRow(p), PLAN_SCHEMA)
  {
    hide TagOf;
    AllSupports(p.support);
    AllProvenances(p.provenance);
    AllPolicies(p.policy);
    AllEligibilities(p.eligibility);
  }

  lemma BufferReadsBack(b: Buffer)
    ensures BufferOf(BufferRow(b)) == DurableBuffer(b)
  {
    hide TagOf, Enumerator, DOMAINS, PROVENANCES, SUPPORTS, STANDINGS, LIFECYCLES, ELIGIBILITIES, POLICIES, CLASSES;
    hide LOCALITIES;
    var row := BufferRow(b);
    QualityReadsBack(b.support, b.provenance, row, 8);
    AllDomains(b.domain);
    AllLocalities(b.locality);
    AllLifecycles(b.lifecycle);
    TagReadsBack(DOMAINS, b.domain, row, 2);
    TagReadsBack(LOCALITIES, b.locality, row, 7);
    TagReadsBack(LIFECYCLES, b.lifecycle, row, 10);
  }

  lemma DeviceReadsBack(d: Device)
    ensures DeviceOf(DeviceRow(d)) == DurableDevice(d)
  {
    hide TagOf, Enumerator, DOMAINS, PROVENANCES, SUPPORTS, STANDINGS, LIFECYCLES, ELIGIBILITIES, POLICIES, CLASSES;
    hide LOCALITIES;
    QualityReadsBack(d.support, d.provenance, DeviceRow(d), 5);
  }

  lemma EndpointReadsBack(e: Endpoint)
    ensures EndpointOf(EndpointRow(e)) == DurableEndpoint(e)
  {
    hide TagOf, Enumerator, DOMAINS, PROVENANCES, SUPPORTS, STANDINGS, LIFECYCLES, ELIGIBILITIES, POLICIES, CLASSES;
    hide LOCALITIES;
    var row := EndpointRow(e);
    QualityReadsBack(e.support, e.provenance, row, 7);
    AllClasses(e.endpointClass);
    TagReadsBack(CLASSES, e.endpointClass, row, 2);
  }

  lemma NicReadsBack(n: Nic)
    ensures NicOf(NicRow(n)) == DurableNic(n)
  {
    hide TagOf, Enumerator, DOMAINS, PROVENANCES, SUPPORTS, STANDINGS, LIFECYCLES, ELIGIBILITIES, POLICIES, CLASSES;
    hide LOCALITIES;
    QualityReadsBack(n.support, n.provenance, NicRow(n), 7);
  }

  lemma StorageReadsBack(e: StorageEndpoint)
    ensures StorageOf(StorageRow(e)) == DurableStorage(e)
  {
    hide TagOf, Enumerator, DOMAINS, PROVENANCES, SUPPORTS, STANDINGS, LIFECYCLES, ELIGIBILITIES, POLICIES, CLASSES;
    hide LOCALITIES;
    QualityReadsBack(e.support, e.provenance, StorageRow(e), 7);
  }

  lemma ProviderReadsBack(p: Provider)
    ensures ProviderOf(ProviderRow(p)) == p
  {
    hide TagOf, Enumerator, DOMAINS, PROVENANCES, SUPPORTS, STANDINGS, LIFECYCLES, ELIGIBILITIES, POLICIES, CLASSES;
    hide LOCALITIES;
    QualityReadsBack(p.support, p.provenance, ProviderRow(p), 3);
  }

  lemma CapabilityReadsBack(c: Capability)
    ensures CapabilityOf(CapabilityRow(c)) == c
  {
    hide TagOf, Enumerator, DOMAINS, PROVENANCES, SUPPORTS, STANDINGS, LIFECYCLES, ELIGIBILITIES, POLICIES, CLASSES;
    hide LOCALITIES;
    QualityReadsBack(c.support, c.provenance, CapabilityRow(c), 4);
  }

  lemma RegistrationReadsBack(r: Registration)
    ensures RegistrationOf(RegistrationRow(r)) == DurableRegistration(r)
  {
    hide TagOf, Enumerator, DOMAINS, PROVENANCES, SUPPORTS, STANDINGS, LIFECYCLES, ELIGIBILITIES, POLICIES, CLASSES;
    hide LOCALITIES;
    var row := RegistrationRow(r);
    QualityReadsBack(r.support, r.provenance, row, 11);
    AllStandings(r.state);
    TagReadsBack(STANDINGS, r.state, row, 10);
  }

  lemma PlanNumbersReadBack(p: Plan)
    ensures
      var q := PlanOf(PlanRow(p));
      && q.id == p.id && q.pathGeneration == p.pathGeneration && q.generation == p.generation
      && q.source == p.source && q.sourceGeneration == p.sourceGeneration
      && q.destination == p.destination && q.destinationGeneration == p.destinationGeneration
      && q.registrationId == p.registrationId && q.registrationGeneration == p.registrationGeneration
      && q.registrationBufferGeneration == p.registrationBufferGeneration && q.expectedBytes == p.expectedBytes
      && q.copyCount == p.copyCount && q.explanation == p.explanation && q.epoch == p.epoch
      && q.authority == p.authority
  {
    hide TagOf, Enumerator, DOMAINS, PROVENANCES, SUPPORTS, STANDINGS, LIFECYCLES, ELIGIBILITIES, POLICIES, CLASSES;
    hide LOCALITIES;
  }

  lemma PlanReadsBack(p: Plan)
    ensures PlanOf(PlanRow(p)) == DurablePlan(p)
  {
    hide TagOf, Enumerator, DOMAINS, PROVENANCES, SUPPORTS, STANDINGS, LIFECYCLES, ELIGIBILITIES, POLICIES, CLASSES;
    hide LOCALITIES;
    var row := PlanRow(p);
    QualityReadsBack(p.support, p.provenance, row, 13);
    AllPolicies(p.policy);
    AllEligibilities(p.eligibility);
    TagReadsBack(POLICIES, p.policy, row, 10);
    TagReadsBack(ELIGIBILITIES, p.eligibility, row, 12);
    PlanNumbersReadBack(p);
  }

  lemma AllDomains(d: MemoryDomain)
    ensures d in DOMAINS
  {
    assert DOMAINS[0] == HostPageable && DOMAINS[1] == HostPinned && DOMAINS[2] == CudaDevice &&
           DOMAINS[3] == CudaManaged;
    assert DOMAINS[4] == PeerDeviceMemory && DOMAINS[5] == RegisteredGpuMemory && DOMAINS[6] == RegisteredHostMemory;
    assert DOMAINS[7] == StorageVisibleBuffer && DOMAINS[8] == NicVisibleBuffer && DOMAINS[9] == UnknownDomain;
  }

  lemma AllLocalities(l: Locality)
    ensures l in LOCALITIES
  {
    assert LOCALITIES[0] == Local && LOCALITIES[1] == Remote && LOCALITIES[2] == UnknownLocality;
  }

  lemma AllLifecycles(l: BufferLifecycle)
    ensures l in LIFECYCLES
  {
    assert LIFECYCLES[0] == Active && LIFECYCLES[1] == RetiredBuffer;
  }

  lemma AllClasses(c: EndpointClass)
    ensures c in CLASSES
  {
    assert CLASSES[0] == NicEndpoint && CLASSES[1] == StorageClass && CLASSES[2] == PeerDevice;
    assert CLASSES[3] == HostEndpoint && CLASSES[4] == UnknownEndpoint;
  }

  lemma AllStandings(s: RegistrationState)
    ensures s in STANDINGS
  {
    assert STANDINGS[0] == Unregistered && STANDINGS[1] == Registering && STANDINGS[2] == Registered;
    assert STANDINGS[3] == RevalidationRequired && STANDINGS[4] == Deregistering && STANDINGS[5] == Retired;
    assert STANDINGS[6] == RegistrationFailed && STANDINGS[7] == RegistrationUnsupported;
  }

  lemma AllPolicies(p: PathPolicy)
    ensures p in POLICIES
  {
    assert POLICIES[0] == DirectOnly && POLICIES[1] == PreferDirect && POLICIES[2] == AllowStaging;
    assert POLICIES[3] == BestAvailable;
  }

  lemma AllEligibilities(e: PathEligibility)
    ensures e in ELIGIBILITIES
  {
    assert ELIGIBILITIES[0] == DirectAllowed && ELIGIBILITIES[1] == DirectAllowedDegraded;
    assert ELIGIBILITIES[2] == DirectUnsupported && ELIGIBILITIES[3] == RegistrationRequired;
    assert ELIGIBILITIES[4] == RegistrationStale && ELIGIBILITIES[5] == EndpointStale &&
           ELIGIBILITIES[6] == DeviceStale;
    assert ELIGIBILITIES[7] == TopologyIncompatible && ELIGIBILITIES[8] == ProviderUnavailable;
    assert ELIGIBILITIES[9] == FallbackRequired && ELIGIBILITIES[10] == NoValidPath;
    assert ELIGIBILITIES[11] == PathRevalidationRequired && ELIGIBILITIES[12] == InsufficientEvidence;
    assert ELIGIBILITIES[13] == PolicyRejected && ELIGIBILITIES[14] == InvalidBuffer &&
           ELIGIBILITIES[15] == PathUnsupported;
  }
}
