/** What the planner answers, written out: the names it looks for, the first objection it raises, and what a
    decision carries. */
module Verdicts {
  import opened Types
  import opened PathPlanner

  // ---------------------------------------------------------------------
  // Names
  // ---------------------------------------------------------------------

  /** A string as the bytes it is compared as. */
  function Ascii(s: string): Text {
    seq(|s|, i requires 0 <= i < |s| => if s[i] as int < 256 then s[i] as int else 0)
  }

  lemma NamesAreSpelled()
    ensures RDMA == Ascii("rdma") && STORAGE == Ascii("storage") && CUDA == Ascii("cuda") && HOST == Ascii("host")
    ensures DIRECT_NIC == Ascii("direct_nic") && DIRECT_STORAGE == Ascii("direct_storage")
    ensures PEER_MEMORY == Ascii("peer_memory") && DIRECT_HOST == Ascii("direct_host")
    ensures HOST_STAGING == Ascii("host_staging") && TRUE == Ascii("true")
  {
  }

  /** The provider and the capability that speak for an endpoint of this class. */
  lemma NamesForClass(c: EndpointClass)
    ensures c.NicEndpoint? ==> ProviderFor(c) == Ascii("rdma") && CapabilityNameFor(c) == Ascii("direct_nic")
    ensures c.StorageClass? ==> ProviderFor(c) == Ascii("storage") && CapabilityNameFor(c) == Ascii("direct_storage")
    ensures c.PeerDevice? ==> ProviderFor(c) == Ascii("cuda") && CapabilityNameFor(c) == Ascii("peer_memory")
    ensures c.HostEndpoint? || c.UnknownEndpoint? ==>
              ProviderFor(c) == Ascii("host") && CapabilityNameFor(c) == Ascii("direct_host")
  {
    hide Ascii;
    NamesAreSpelled();
  }

  // ---------------------------------------------------------------------
  // Direct paths, class by class
  // ---------------------------------------------------------------------

  /** Everything a direct path needs besides the provider and the capability. */
  ghost predicate OtherwiseDirect(req: Request, ev: Evidence) {
    var src, dest := ev.source, ev.destination;
    && src.id != 0 && src.lifecycle.Active? && req.size <= src.size
    && (src.domain.CudaDevice? || src.domain.CudaManaged? || src.domain.RegisteredGpuMemory?)
    && src.alignment >= 64 && req.size % src.alignment == 0
    && dest.id != 0 && !dest.endpointClass.UnknownEndpoint? && dest.healthy && !dest.support.Unsupported?
    && NewestGeneration(ev) == dest.generation
    && ev.device.id != 0 && NewestDeviceGeneration(ev) == ev.device.generation
    && RegisteredFor(ev)
  }

  /** The newest generation listed for the destination, or its own if none is. */
  function NewestGeneration(ev: Evidence): nat {
    var newest := NewestEndpoint(ev.endpoints, ev.destination.id);
    if newest.Some? then newest.value.generation else ev.destination.generation
  }

  function NewestDeviceGeneration(ev: Evidence): nat {
    var newest := NewestDevice(ev.devices, ev.device.id);
    if newest.Some? then newest.value.generation else ev.device.generation
  }

  /** The newest registration of the pair is REGISTERED, for both generations as evidenced, by an authority of the
      epoch whose worker, if any, is listed at its boot. */
  ghost predicate RegisteredFor(ev: Evidence) {
    var reg := NewestRegistration(ev.registrations, ev.source.id, ev.destination.id);
    reg.Some? && reg.value.state.Registered?
    && reg.value.bufferGeneration == ev.source.generation && reg.value.endpointGeneration == ev.destination.generation
    && reg.value.authority.epoch == ev.epoch
    && (reg.value.authority.worker != 0 ==> (reg.value.authority.worker, reg.value.authority.boot) in ev.liveWorkers)
  }

  /** An available provider of this name, and its first observation of this capability says "true". */
  ghost predicate Vouched(ev: Evidence, provider: string, capability: string) {
    && (exists p :: p in ev.providers && p.name == Ascii(provider) && p.available && !p.support.Unsupported?)
    && var c := FirstCapability(ev.capabilities, Ascii(provider), Ascii(capability));
       c.Some? && c.value.value == Ascii("true") && !c.value.support.Unsupported?
  }

  lemma VouchedIff(ev: Evidence, provider: string, capability: string)
    requires ProviderFor(ev.destination.endpointClass) == Ascii(provider)
    requires CapabilityNameFor(ev.destination.endpointClass) == Ascii(capability)
    ensures Vouched(ev, provider, capability) <==>
              ProviderUsable(ev, ProviderFor(ev.destination.endpointClass)) && CapabilityProven(CapabilityFor(ev))
  {
    hide Ascii, ProviderFor, CapabilityNameFor, FirstCapability;
    NamesAreSpelled();
  }

  lemma ValidIffOtherwise(req: Request, ev: Evidence)
    ensures DirectPathValid(req, ev) <==>
              && OtherwiseDirect(req, ev) && ProviderUsable(ev, ProviderFor(ev.destination.endpointClass))
              && CapabilityProven(CapabilityFor(ev))
  {
    hide ProviderUsable, CapabilityProven, CapabilityFor, ProviderFor;
  }

  /** For each class of endpoint, a path is direct exactly when everything else is in order and the provider of that
      class vouches for the capability of that class. */
  lemma DirectIffVouched(req: Request, ev: Evidence)
    ensures
      var direct, c := IsDirect(Decide(req, ev).eligibility), ev.destination.endpointClass;
      && (c.NicEndpoint? ==> (direct <==> OtherwiseDirect(req, ev) && Vouched(ev, "rdma", "direct_nic")))
      && (c.StorageClass? ==> (direct <==> OtherwiseDirect(req, ev) && Vouched(ev, "storage", "direct_storage")))
      && (c.PeerDevice? ==> (direct <==> OtherwiseDirect(req, ev) && Vouched(ev, "cuda", "peer_memory")))
      && (c.HostEndpoint? ==> (direct <==> OtherwiseDirect(req, ev) && Vouched(ev, "host", "direct_host")))
      && (c.UnknownEndpoint? ==> !direct)
  {
    hide Decide, DirectPathValid, Vouched, ProviderUsable, CapabilityProven, CapabilityFor, ProviderFor;
    hide CapabilityNameFor;
    hide RegisteredFor, NewestGeneration, NewestDeviceGeneration;
    var c := ev.destination.endpointClass;
    DirectIffValid(req, ev);
    ValidIffOtherwise(req, ev);
    NamesForClass(c);
    if c.NicEndpoint? {
      VouchedIff(ev, "rdma", "direct_nic");
    } else if c.StorageClass? {
      VouchedIff(ev, "storage", "direct_storage");
    } else if c.PeerDevice? {
      VouchedIff(ev, "cuda", "peer_memory");
    } else {
      VouchedIff(ev, "host", "direct_host");
    }
  }

  // ---------------------------------------------------------------------
  // The first objection
  // ---------------------------------------------------------------------

  /** What is wrong with the path, in the order in which it is looked for, and what is said of it. */
  ghost function Objection(req: Request, ev: Evidence): Option<PathEligibility> {
    var src, dest := ev.source, ev.destination;
    var reg := NewestRegistration(ev.registrations, src.id, dest.id);
    if src.id == 0 || src.lifecycle.RetiredBuffer? then Some(InvalidBuffer)
    else if req.size > src.size then Some(NoValidPath)
    else if dest.id == 0 || dest.endpointClass.UnknownEndpoint? then Some(NoValidPath)
    else if dest.support.Unsupported? then Some(DirectUnsupported)
    else if !dest.healthy then Some(EndpointStale)
    else if NewestGeneration(ev) != dest.generation then Some(EndpointStale)
    else if !src.domain.CudaDevice? && !src.domain.CudaManaged? && !src.domain.RegisteredGpuMemory? then
      Some(DirectUnsupported)
    else if ev.device.id == 0 || NewestDeviceGeneration(ev) != ev.device.generation then Some(DeviceStale)
    else if !ProviderUsable(ev, ProviderFor(dest.endpointClass)) then Some(ProviderUnavailable)
    else if !CapabilityProven(CapabilityFor(ev)) then Some(InsufficientEvidence)
    else if reg.None? then Some(RegistrationRequired)
    else if !reg.value.state.Registered? then Some(RegistrationStale)
    else if reg.value.bufferGeneration != src.generation || reg.value.endpointGeneration != dest.generation then
      Some(RegistrationStale)
    else if !AuthorityLive(reg.value.authority, ev) then Some(PathRevalidationRequired)
    else if src.alignment < 64 || req.size % src.alignment != 0 then Some(DirectUnsupported)
    else None
  }

  /** The support and provenance that a decision with an objection carries: of the last thing that was in order. */
  ghost function Quality(req: Request, ev: Evidence): (Support, Provenance) {
    var src, dest := ev.source, ev.destination;
    var reg, cap := NewestRegistration(ev.registrations, src.id, dest.id), CapabilityFor(ev);
    if src.id == 0 || src.lifecycle.RetiredBuffer? || req.size > src.size then (UnknownSupport, SyntheticFixture)
    else if dest.id == 0 || dest.endpointClass.UnknownEndpoint? then (UnknownSupport, SyntheticFixture)
    else if dest.support.Unsupported? then (Unsupported, dest.provenance)
    else if !dest.healthy || NewestGeneration(ev) != dest.generation then (UnknownSupport, dest.provenance)
    else if !src.domain.CudaDevice? && !src.domain.CudaManaged? && !src.domain.RegisteredGpuMemory? then
      (UnknownSupport, dest.provenance)
    else if ev.device.id == 0 || NewestDeviceGeneration(ev) != ev.device.generation then (src.support, dest.provenance)
    else if !ProviderUsable(ev, ProviderFor(dest.endpointClass)) then (Unsupported, dest.provenance)
    else if cap.None? then (Unsupported, dest.provenance)
    else if !CapabilityProven(cap) then (cap.value.support, dest.provenance)
    else if !RegistrationUsable(reg, ev) then (cap.value.support, cap.value.provenance)
    else if reg.Some? then (reg.value.support, reg.value.provenance)
    else (UnknownSupport, SyntheticFixture)
  }

  lemma {:induction false} FirstUnmet(gates: seq<Gate>, k: nat)
    requires k <= |gates| && (forall i :: 0 <= i < k ==> gates[i].met) && (k < |gates| ==> !gates[k].met)
    ensures Passed(gates) == k
  {
    if k == 0 {
      // The first gate fails, or there is none.
    } else {
      FirstUnmet(gates[1..], k - 1);
    }
  }

  /** How far the objection lets the gates be passed. */
  ghost predicate ObjectsAt(req: Request, ev: Evidence, k: nat) {
    && k <= 12 && (forall i :: 0 <= i < k ==> Gates(req, ev)[i].met)
    && (k < 12 ==> !Gates(req, ev)[k].met && Objection(req, ev) == Some(Gates(req, ev)[k].outcome))
    && (k < 12 ==> Quality(req, ev) == (Gates(req, ev)[k].support, Gates(req, ev)[k].provenance))
    && (k == 12 ==> Objection(req, ev).None?)
  }

  lemma ObjectsAtOnce(req: Request, ev: Evidence) returns (k: nat)
    requires
      var src, dest := ev.source, ev.destination;
      || src.id == 0 || src.lifecycle.RetiredBuffer? || req.size > src.size
      || dest.id == 0 || dest.endpointClass.UnknownEndpoint?
    ensures ObjectsAt(req, ev, k)
  {
    hide ProviderUsable, CapabilityProven, CapabilityFor, ProviderFor, AuthorityLive, DeviceIsNewest, StagingEvidenced;
    hide RegistrationUsable, RegistrationOutcome, NewestDeviceGeneration, NewestGeneration, EndpointIsNewest;
    hide NewestRegistration, RegistrationFor, IsGpuMemory;
    var src := ev.source;
    k := if src.id == 0 || src.lifecycle.RetiredBuffer? then 0
         else if req.size > src.size then 1
         else 2;
  }

  lemma ObjectsEarly(req: Request, ev: Evidence) returns (k: nat)
    requires
      var src, dest := ev.source, ev.destination;
      && src.id != 0 && src.lifecycle.Active? && req.size <= src.size
      && dest.id != 0 && !dest.endpointClass.UnknownEndpoint?
      && (dest.support.Unsupported? || !dest.healthy || NewestGeneration(ev) != dest.generation)
    ensures ObjectsAt(req, ev, k)
  {
    hide ProviderUsable, CapabilityProven, CapabilityFor, ProviderFor, AuthorityLive, DeviceIsNewest, StagingEvidenced;
    hide RegistrationUsable, RegistrationOutcome, NewestDeviceGeneration, NewestRegistration, RegistrationFor;
    hide IsGpuMemory;
    var dest := ev.destination;
    k := if dest.support.Unsupported? then 3
         else if !dest.healthy then 4
         else 5;
  }

  lemma ObjectsLate(req: Request, ev: Evidence) returns (k: nat)
    requires
      var src, dest := ev.source, ev.destination;
      && src.id != 0 && src.lifecycle.Active? && req.size <= src.size
      && dest.id != 0 && !dest.endpointClass.UnknownEndpoint? && !dest.support.Unsupported? && dest.healthy
      && NewestGeneration(ev) == dest.generation
    ensures ObjectsAt(req, ev, k)
  {
    hide ProviderUsable, CapabilityFor, ProviderFor, AuthorityLive, StagingEvidenced;
    var src, dest := ev.source, ev.destination;
    k := if !IsGpuMemory(src.domain) then 6
         else if ev.device.id == 0 || NewestDeviceGeneration(ev) != ev.device.generation then 7
         else if !ProviderUsable(ev, ProviderFor(dest.endpointClass)) then 8
         else if !CapabilityProven(CapabilityFor(ev)) then 9
         else if !RegistrationUsable(RegistrationFor(ev), ev) then 10
         else if src.alignment < 64 || req.size % src.alignment != 0 then 11
         else 12;
  }

  /** The outcome of the direct path is the first objection; without one it is direct, in full if the registration
      is real. */
  lemma OutcomeIsFirstObjection(req: Request, ev: Evidence)
    ensures
      var d, reg := Decide(req, ev), NewestRegistration(ev.registrations, ev.source.id, ev.destination.id);
      if Objection(req, ev).Some? then d.directEligibility == Objection(req, ev).value
      else
        && reg.Some?
        && d.directEligibility == if reg.value.support.Real? then DirectAllowed else DirectAllowedDegraded
  {
    hide Objection, Quality, Gates, Weigh, NewestGeneration;
    var k := 0;
    var src, dest := ev.source, ev.destination;
    if || src.id == 0 || src.lifecycle.RetiredBuffer? || req.size > src.size
       || dest.id == 0 || dest.endpointClass.UnknownEndpoint? {
      k := ObjectsAtOnce(req, ev);
    } else if dest.support.Unsupported? || !dest.healthy || NewestGeneration(ev) != dest.generation {
      k := ObjectsEarly(req, ev);
    } else {
      k := ObjectsLate(req, ev);
    }
    FirstUnmet(Gates(req, ev), k);
    OutcomeAt(req, ev, k);
  }

  lemma OutcomeAt(req: Request, ev: Evidence, k: nat)
    requires Passed(Gates(req, ev)) == k
    ensures k < 12 ==> Decide(req, ev).directEligibility == Gates(req, ev)[k].outcome
    ensures k == 12 ==>
              var reg := NewestRegistration(ev.registrations, ev.source.id, ev.destination.id);
              && reg.Some? && Decide(req, ev).directEligibility ==
                                if reg.value.support.Real? then DirectAllowed else DirectAllowedDegraded
  {
    hide DirectPathValid, Passed;
    AllGatesMet(req, ev);
    if k == 12 { ValidHasRegistration(req, ev); }
  }

  lemma ValidHasRegistration(req: Request, ev: Evidence)
    requires DirectPathValid(req, ev)
    ensures RegistrationFor(ev).Some?
  {
  }

  const ORDER := [SourceBuffer, Size, DestinationEndpoint, DestinationSupported, DestinationHealthy,
                  DestinationGeneration, SourceIsAccelerator, SourceDevice, ProviderAvailable, DirectCapability,
                  RegistrationCurrent, Alignment]

  /** The requirements in the order in which they are reported, and what a failure is reported as. */
  lemma RequirementsAreReported(req: Request, ev: Evidence, i: nat)
    requires i < 12
    ensures
      var gate := Gates(req, ev)[i];
      && gate.reported == ORDER[i]
      && (i != 6 && i != 10 ==> gate.failedAs == ORDER[i])
      && (i == 6 ==> gate.failedAs == if ev.source.domain.HostPinned? || ev.source.domain.RegisteredHostMemory?
                                      then SourceIsAccelerator else SourceMemoryDomain)
      && (i == 10 ==> gate.failedAs == if gate.outcome.PathRevalidationRequired? then RegistrationAuthority
                                       else RegistrationCurrent)
  {
    hide ProviderUsable, CapabilityProven, CapabilityFor, ProviderFor, AuthorityLive, DeviceIsNewest, StagingEvidenced;
    hide RegistrationUsable, RegistrationOutcome, EndpointIsNewest, RegistrationFor;
  }

  /** A decision lists what is in order, in that order, and ends with the objection if there is one. */
  lemma FindingsFollowOrder(req: Request, ev: Evidence)
    ensures
      var found := Decide(req, ev).findings;
      && 0 < |found| <= 12
      && (forall i :: 0 <= i < |found| && found[i].satisfied ==> found[i].requirement == ORDER[i])
      && (forall i :: 0 <= i < |found| - 1 ==> found[i].satisfied)
      && (found[|found| - 1].satisfied <==> Objection(req, ev).None?)
      && (Objection(req, ev).None? ==> |found| == 12)
  {
    hide Objection, Quality, Gates, Decide, Passed;
    var k := ObjectionGate(req, ev);
    FindingsOfGates(req, ev);
    forall i | 0 <= i < 12 ensures Gates(req, ev)[i].reported == ORDER[i] { RequirementsAreReported(req, ev, i); }
  }

  lemma FindingsOfGates(req: Request, ev: Evidence)
    ensures Decide(req, ev).findings == Findings(Gates(req, ev), Passed(Gates(req, ev)))
  {
    hide GatesOn, Weigh, Findings, Passed;
  }

  // ---------------------------------------------------------------------
  // What a decision carries
  // ---------------------------------------------------------------------

  /** The class of a direct path and of its fallback, by direction and endpoint. */
  lemma ClassesOfPaths(c: EndpointClass)
    ensures c.NicEndpoint? ==>
              && DirectClass(GpuToPeer, c) == GpuToNicDirect && DirectClass(PeerToGpu, c) == NicToGpuDirect
              && FallbackClass(GpuToPeer, c) == GpuToHostStagedToNic
              && FallbackClass(PeerToGpu, c) == NicToHostStagedToGpu
    ensures c.StorageClass? ==>
              && DirectClass(GpuToPeer, c) == GpuToStorageDirect && DirectClass(PeerToGpu, c) == StorageToGpuDirect
              && FallbackClass(GpuToPeer, c) == GpuToHostStagedToStorage
              && FallbackClass(PeerToGpu, c) == StorageToHostStagedToGpu
    ensures c.PeerDevice? ==> DirectClass(GpuToPeer, c) == DirectClass(PeerToGpu, c) == GpuToGpuDirect
    ensures c.HostEndpoint? || c.UnknownEndpoint? ==>
              DirectClass(GpuToPeer, c) == GpuToNicDirect && DirectClass(PeerToGpu, c) == NicToGpuDirect
    ensures !c.NicEndpoint? && !c.StorageClass? ==>
              FallbackClass(GpuToPeer, c) == GpuToHostPinned && FallbackClass(PeerToGpu, c) == HostPinnedToGpu
  {
  }

  /** Host staging is evidenced by an observation "host_staging" = "true" of this epoch that is not unsupported. */
  ghost predicate StagingObserved(ev: Evidence) {
    exists c :: c in ev.capabilities && c.capability == Ascii("host_staging") && c.value == Ascii("true") &&
                !c.support.Unsupported? && c.authority.epoch == ev.epoch
  }

  ghost predicate Reachable(ev: Evidence) {
    ev.destination.id != 0 && ev.destination.healthy && !ev.destination.endpointClass.UnknownEndpoint?
  }

  lemma StagingIffObserved(ev: Evidence)
    ensures StagingEvidenced(ev) <==> StagingObserved(ev)
    ensures DestinationUsable(ev) <==> Reachable(ev)
  {
    hide Ascii;
    NamesAreSpelled();
  }

  /** A direct decision carries the registration's quality and one candidate of the path's class; a staged one the
      fallback's candidate; a refusal neither. It says that staging was disallowed exactly when only policy was in
      its way. */
  lemma DecisionCarries(req: Request, ev: Evidence)
    ensures
      var d, objection := Decide(req, ev), Objection(req, ev);
      var reg := NewestRegistration(ev.registrations, ev.source.id, ev.destination.id);
      var stageable := objection.Some? && Reachable(ev) && StagingObserved(ev);
      && d.sourceGeneration == ev.source.generation && d.destinationGeneration == ev.destination.generation
      && d.directClass == DirectClass(req.direction, ev.destination.endpointClass)
      && d.degraded == d.directEligibility.DirectAllowedDegraded?
      && (objection.None? ==>
            && reg.Some? && d.support == reg.value.support && d.provenance == reg.value.provenance
            && d.eligibility == d.directEligibility && d.fallbackCandidates == [] && d.selectedFallback.None?
            && d.directCandidates == [Candidate(d.directClass, true, d.support, d.provenance, 1)])
      && (objection.Some? ==> d.directCandidates == [] && (d.support, d.provenance) == Quality(req, ev))
      && d.fallbackAvailable == (stageable && !req.policy.DirectOnly?)
      && d.fallbackDisallowed == (stageable && req.policy.DirectOnly?)
      && (d.fallbackAvailable ==>
            && d.eligibility == FallbackRequired
            && var c := Candidate(FallbackClass(req.direction, ev.destination.endpointClass), false, Synthetic,
                                  SyntheticFixture, 2);
               d.fallbackCandidates == [c] && d.selectedFallback == Some(c))
      && (objection.Some? && !d.fallbackAvailable ==>
            d.eligibility == objection.value && d.fallbackCandidates == [] && d.selectedFallback.None?)
  {
    hide Objection, Quality, Gates, Weigh, StagingObserved, Reachable, StagingEvidenced, DestinationUsable;
    hide NewestGeneration;
    OutcomeIsFirstObjection(req, ev);
    StagingIffObserved(ev);
    var k := ObjectionGate(req, ev);
    FieldsAt(req, ev, k);
  }

  lemma ObjectionGate(req: Request, ev: Evidence) returns (k: nat)
    ensures k == Passed(Gates(req, ev)) && (k < 12 <==> Objection(req, ev).Some?) && k <= 12
    ensures k < 12 ==> Quality(req, ev) == (Gates(req, ev)[k].support, Gates(req, ev)[k].provenance)
  {
    hide Objection, Quality, Gates, NewestGeneration;
    var src, dest := ev.source, ev.destination;
    if || src.id == 0 || src.lifecycle.RetiredBuffer? || req.size > src.size
       || dest.id == 0 || dest.endpointClass.UnknownEndpoint? {
      k := ObjectsAtOnce(req, ev);
    } else if dest.support.Unsupported? || !dest.healthy || NewestGeneration(ev) != dest.generation {
      k := ObjectsEarly(req, ev);
    } else {
      k := ObjectsLate(req, ev);
    }
    FirstUnmet(Gates(req, ev), k);
  }

  lemma FieldsAt(req: Request, ev: Evidence, k: nat)
    requires Passed(Gates(req, ev)) == k
    ensures
      var d, reg := Decide(req, ev), NewestRegistration(ev.registrations, ev.source.id, ev.destination.id);
      var staging := DestinationUsable(ev) && StagingEvidenced(ev);
      && d.sourceGeneration == ev.source.generation && d.destinationGeneration == ev.destination.generation
      && d.directClass == DirectClass(req.direction, ev.destination.endpointClass)
      && d.degraded == d.directEligibility.DirectAllowedDegraded?
      && (k == 12 ==>
            && reg.Some? && d.support == reg.value.support && d.provenance == reg.value.provenance
            && d.eligibility == d.directEligibility && d.fallbackCandidates == [] && d.selectedFallback.None?
            && d.directCandidates == [Candidate(d.directClass, true, d.support, d.provenance, 1)])
      && (k < 12 ==> d.directCandidates == [])
      && (k < 12 ==> d.support == Gates(req, ev)[k].support && d.provenance == Gates(req, ev)[k].provenance)
      && d.fallbackAvailable == (k < 12 && staging && !req.policy.DirectOnly?)
      && d.fallbackDisallowed == (k < 12 && staging && req.policy.DirectOnly?)
      && (d.fallbackAvailable ==>
            && d.eligibility == FallbackRequired
            && var c := Candidate(FallbackClass(req.direction, ev.destination.endpointClass), false, Synthetic,
                                  SyntheticFixture, 2);
               d.fallbackCandidates == [c] && d.selectedFallback == Some(c))
      && (k < 12 && !d.fallbackAvailable ==>
            d.eligibility == d.directEligibility && d.fallbackCandidates == [] && d.selectedFallback.None?)
  {
    hide DirectPathValid, Passed, GatesOn, StagingEvidenced, DestinationUsable;
    AllGatesMet(req, ev);
    if k == 12 { ValidHasRegistration(req, ev); }
  }

  // ---------------------------------------------------------------------
  // First among equals
  // ---------------------------------------------------------------------

  ghost predicate IsFirstNewest(rs: seq<Registration>, b: nat, e: nat, i: nat) {
    && i < |rs| && rs[i].Joins(b, e)
    && (forall j :: 0 <= j < i && rs[j].Joins(b, e) ==> rs[j].generation < rs[i].generation)
    && (forall j :: i < j < |rs| && rs[j].Joins(b, e) ==> rs[j].generation <= rs[i].generation)
  }

  /** Of several newest registrations of a pair, the one listed first is taken. */
  lemma {:induction false} NewestIsFirst(rs: seq<Registration>, b: nat, e: nat) returns (i: nat)
    requires NewestRegistration(rs, b, e).Some?
    ensures IsFirstNewest(rs, b, e, i) && NewestRegistration(rs, b, e) == Some(rs[i])
  {
    var n := |rs| - 1;
    var front, last := rs[..n], rs[n];
    var best := NewestRegistration(front, b, e);
    assert rs == front + [last];
    if last.Joins(b, e) && (best.None? || last.generation > best.value.generation) {
      i := n;
      assert forall j :: 0 <= j < n ==> rs[j] == front[j] && front[j] in front;
    } else {
      i := NewestIsFirst(front, b, e);
    }
  }

  /** Of several observations of a capability, the one listed first is taken. */
  lemma {:induction false} CapabilityIsFirst(cs: seq<Capability>, provider: Text, capability: Text) returns (i: nat)
    requires FirstCapability(cs, provider, capability).Some?
    ensures i < |cs| && FirstCapability(cs, provider, capability) == Some(cs[i])
    ensures forall j :: 0 <= j < i ==> cs[j].provider != provider || cs[j].capability != capability
  {
    if cs[0].provider == provider && cs[0].capability == capability {
      i := 0;
    } else {
      i := CapabilityIsFirst(cs[1..], provider, capability);
      i := i + 1;
    }
  }
}
