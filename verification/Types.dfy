/** Identities, classifications and records of the fabric. Ids, generations and epochs are
    unbounded naturals; id 0 is the nil id. Text is a byte string. */
module Types {
  import opened Bits

  datatype Option<+T> = None | Some(value: T)
  datatype Result<+T> = Ok(value: T) | Err(code: ErrorCode)

  type Text = seq<Byte>

  datatype MemoryDomain =
    | HostPageable | HostPinned | CudaDevice | CudaManaged | PeerDeviceMemory | RegisteredGpuMemory
    | RegisteredHostMemory | StorageVisibleBuffer | NicVisibleBuffer | UnknownDomain

  datatype Provenance =
    | CudaRuntime | CudaDriver | Nvml | OperatingSystem | RdmaProvider | Verbs | DmaBuf | StorageBackend
    | NvidiaDriver | Benchmark | Persisted | Derived | SyntheticFixture

  datatype Support = Real | Synthetic | Unsupported | UnknownSupport

  datatype RegistrationState =
    | Unregistered | Registering | Registered | RevalidationRequired | Deregistering | Retired
    | RegistrationFailed | RegistrationUnsupported

  datatype BufferLifecycle = Active | RetiredBuffer

  datatype PathEligibility =
    | DirectAllowed | DirectAllowedDegraded | DirectUnsupported | RegistrationRequired | RegistrationStale
    | EndpointStale | DeviceStale | TopologyIncompatible | ProviderUnavailable | FallbackRequired | NoValidPath
    | PathRevalidationRequired | InsufficientEvidence | PolicyRejected | InvalidBuffer | PathUnsupported

  datatype PathPolicy = DirectOnly | PreferDirect | AllowStaging | BestAvailable

  datatype PathClass =
    | GpuToGpuDirect | GpuToNicDirect | NicToGpuDirect | GpuToStorageDirect | StorageToGpuDirect
    | GpuToHostPinned | HostPinnedToGpu | GpuToHostStagedToNic | NicToHostStagedToGpu
    | GpuToHostStagedToStorage | StorageToHostStagedToGpu

  datatype EndpointClass = NicEndpoint | StorageClass | PeerDevice | HostEndpoint | UnknownEndpoint

  datatype TransferState =
    | Planned | Authorized | Submitted | InFlight | Completed | Verified | TransferFailed | Cancelled
    | Stale | TransferRevalidationRequired

  datatype ErrorCode =
    | NotFound | UnsupportedError | InvalidArgument | InvalidBufferError | RegistrationRequiredError
    | RegistrationStaleError | RegistrationFailedError | StaleBuffer | StaleEndpoint | StaleGeneration
    | StaleBoot | StaleEpoch | DirectUnavailable | ProviderUnavailableError | TopologyIncompatibleError
    | FallbackDisallowed | NoValidPathError | RevalidationRequiredError | IntegrityFailure
    | PersistenceError | ResourceLimit | CancelledError

  datatype Direction = GpuToPeer | PeerToGpu
  datatype Locality = Local | Remote | UnknownLocality

  /** A worker incarnation within a coordinator epoch; worker 0 is the coordinator itself. */
  datatype Authority = Authority(worker: nat, boot: nat, epoch: nat) {
    predicate WorkerOwned() { worker != 0 }
  }

  const NO_AUTHORITY := Authority(0, 0, 0)

  datatype Buffer = Buffer(
    id: nat, generation: nat, authority: Authority, domain: MemoryDomain, size: nat, alignment: nat,
    device: nat, deviceGeneration: nat, locality: Locality,
    registrationState: RegistrationState, registrationId: nat, registrationGeneration: nat,
    lifecycle: BufferLifecycle, support: Support, provenance: Provenance, freshness: nat, name: Text)

  datatype Device = Device(
    id: nat, generation: nat, name: Text, computeCapability: Text, peerMemorySupported: bool,
    support: Support, provenance: Provenance, authority: Authority, freshness: nat)

  datatype Endpoint = Endpoint(
    id: nat, generation: nat, endpointClass: EndpointClass, name: Text, topologyHint: Text, healthy: bool,
    provider: nat, support: Support, provenance: Provenance, authority: Authority, freshness: nat)

  datatype Nic = Nic(
    id: nat, generation: nat, name: Text, locator: Text, rdmaCapable: bool, directPathCapable: bool,
    provider: nat, support: Support, provenance: Provenance, authority: Authority, freshness: nat)

  datatype StorageEndpoint = StorageEndpoint(
    id: nat, generation: nat, name: Text, backendName: Text, path: Text, directPathCapable: bool,
    provider: nat, support: Support, provenance: Provenance, authority: Authority, freshness: nat)

  datatype Registration = Registration(
    id: nat, generation: nat, buffer: nat, bufferGeneration: nat, endpoint: nat, endpointGeneration: nat,
    provider: nat, authority: Authority, state: RegistrationState, support: Support, provenance: Provenance,
    duplicated: bool, freshness: nat, requiredCapabilities: seq<Text>, handle: Option<nat>) {

    predicate Joins(b: nat, e: nat) { buffer == b && endpoint == e }
  }

  datatype Provider = Provider(id: nat, name: Text, available: bool, support: Support, provenance: Provenance)

  datatype Capability = Capability(
    id: nat, provider: Text, capability: Text, value: Text, support: Support, provenance: Provenance,
    authority: Authority, freshness: nat)

  datatype TransferStage = TransferStage(
    pathClass: PathClass, support: Support, provenance: Provenance, src: nat, dst: nat, endpoint: nat, direct: bool)

  datatype Plan = Plan(
    id: nat, pathGeneration: nat, generation: nat, source: nat, sourceGeneration: nat,
    destination: nat, destinationGeneration: nat, registrationId: nat, registrationGeneration: nat,
    registrationBufferGeneration: nat, policy: PathPolicy, expectedBytes: nat, eligibility: PathEligibility,
    support: Support, provenance: Provenance, copyCount: nat, stages: seq<TransferStage>, explanation: Text,
    epoch: nat, authority: Authority, authoritative: bool) {

    predicate Direct() { IsDirect(eligibility) }
  }

  predicate IsDirect(e: PathEligibility) { e.DirectAllowed? || e.DirectAllowedDegraded? }

  datatype Attempt = Attempt(
    id: nat, planId: nat, planGeneration: nat, state: TransferState, bytes: nat, epoch: nat, authority: Authority,
    completionCommitted: bool, submittedBytes: nat, integrityChecked: bool, integrityPassed: bool, means: Text,
    support: Support, provenance: Provenance)

  datatype Receipt = Receipt(
    attemptId: nat, planGeneration: nat, state: TransferState, bytes: nat, integrityVerified: bool,
    support: Support, provenance: Provenance, means: Text, epoch: nat)

  datatype Verification = Verification(
    id: nat, attemptId: nat, passed: bool, bytesChecked: nat, support: Support, means: Text)
}
