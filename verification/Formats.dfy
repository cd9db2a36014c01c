/** The formats to the byte: enumerators, records, the state file and the frame. */
module Formats {
  import opened Bits
  import opened Crc32
  import opened Types
  import opened Fields
  import opened Records
  import opened Tables
  import opened StateFile
  import opened CoordinatorModel
  import FrameProtocol
  import Verdicts

  // ---------------------------------------------------------------------
  // Enumerators
  // ---------------------------------------------------------------------

  lemma {:induction false} TagIs<E>(all: seq<E>, e: E, k: nat)
    requires k < |all| && all[k] == e && forall j :: 0 <= j < k ==> all[j] != e
    ensures TagOf(all, e) == k
  {
    if k == 0 {
      // The first enumerator.
    } else {
      assert all[1..][k - 1] == e;
      TagIs(all[1..], e, k - 1);
    }
  }

  function DomainCode(e: MemoryDomain): nat {
    match e
    case HostPageable => 0
    case HostPinned => 1
    case CudaDevice => 2
    case CudaManaged => 3
    case PeerDeviceMemory => 4
    case RegisteredGpuMemory => 5
    case RegisteredHostMemory => 6
    case StorageVisibleBuffer => 7
    case NicVisibleBuffer => 8
    case UnknownDomain => 9
  }

  lemma DomainCodes(e: MemoryDomain)
    ensures TagOf(DOMAINS, e) == DomainCode(e) && |DOMAINS| == 10
  {
    hide TagOf;
    TagIs(DOMAINS, e, DomainCode(e));
  }

  function ProvenanceCode(e: Provenance): nat {
    match e
    case CudaRuntime => 0
    case CudaDriver => 1
    case Nvml => 2
    case OperatingSystem => 3
    case RdmaProvider => 4
    case Verbs => 5
    case DmaBuf => 6
    case StorageBackend => 7
    case NvidiaDriver => 8
    case Benchmark => 9
    case Persisted => 10
    case Derived => 11
    case SyntheticFixture => 12
  }

  lemma ProvenanceCodes(e: Provenance)
    ensures TagOf(PROVENANCES, e) == ProvenanceCode(e) && |PROVENANCES| == 13
  {
    hide TagOf;
    TagIs(PROVENANCES, e, ProvenanceCode(e));
  }

  function SupportCode(e: Support): nat {
    match e
    case Real => 0
    case Synthetic => 1
    case Unsupported => 2
    case UnknownSupport => 3
  }

  lemma SupportCodes(e: Support)
    ensures TagOf(SUPPORTS, e) == SupportCode(e) && |SUPPORTS| == 4
  {
    hide TagOf;
    TagIs(SUPPORTS, e, SupportCode(e));
  }

  function StandingCode(e: RegistrationState): nat {
    match e
    case Unregistered => 0
    case Registering => 1
    case Registered => 2
    case RevalidationRequired => 3
    case Deregistering => 4
    case Retired => 5
    case RegistrationFailed => 6
    case RegistrationUnsupported => 7
  }

  lemma StandingCodes(e: RegistrationState)
    ensures TagOf(STANDINGS, e) == StandingCode(e) && |STANDINGS| == 8
  {
    hide TagOf;
    TagIs(STANDINGS, e, StandingCode(e));
  }

  function LifecycleCode(e: BufferLifecycle): nat {
    match e
    case Active => 0
    case RetiredBuffer => 1
  }

  lemma LifecycleCodes(e: BufferLifecycle)
    ensures TagOf(LIFECYCLES, e) == LifecycleCode(e) && |LIFECYCLES| == 2
  {
    hide TagOf;
    TagIs(LIFECYCLES, e, LifecycleCode(e));
  }

  function EligibilityCode(e: PathEligibility): nat {
    match e
    case DirectAllowed => 0
    case DirectAllowedDegraded => 1
    case DirectUnsupported => 2
    case RegistrationRequired => 3
    case RegistrationStale => 4
    case EndpointStale => 5
    case DeviceStale => 6
    case TopologyIncompatible => 7
    case ProviderUnavailable => 8
    case FallbackRequired => 9
    case NoValidPath => 10
    case PathRevalidationRequired => 11
    case InsufficientEvidence => 12
    case PolicyRejected => 13
    case InvalidBuffer => 14
    case PathUnsupported => 15
  }

  lemma EligibilityCodes(e: PathEligibility)
    ensures TagOf(ELIGIBILITIES, e) == EligibilityCode(e) && |ELIGIBILITIES| == 16
  {
    hide TagOf;
    TagIs(ELIGIBILITIES, e, EligibilityCode(e));
  }

  function PolicyCode(e: PathPolicy): nat {
    match e
    case DirectOnly => 0
    case PreferDirect => 1
    case AllowStaging => 2
    case BestAvailable => 3
  }

  lemma PolicyCodes(e: PathPolicy)
    ensures TagOf(POLICIES, e) == PolicyCode(e) && |POLICIES| == 4
  {
    hide TagOf;
    TagIs(POLICIES, e, PolicyCode(e));
  }

  function ClassCode(e: EndpointClass): nat {
    match e
    case NicEndpoint => 0
    case StorageClass => 1
    case PeerDevice => 2
    case HostEndpoint => 3
    case UnknownEndpoint => 4
  }

  lemma ClassCodes(e: EndpointClass)
    ensures TagOf(CLASSES, e) == ClassCode(e) && |CLASSES| == 5
  {
    hide TagOf;
    TagIs(CLASSES, e, ClassCode(e));
  }

  function LocalityCode(e: Locality): nat {
    match e
    case Local => 0
    case Remote => 1
    case UnknownLocality => 2
  }

  lemma LocalityCodes(e: Locality)
    ensures TagOf(LOCALITIES, e) == LocalityCode(e) && |LOCALITIES| == 3
  {
    hide TagOf;
    TagIs(LOCALITIES, e, LocalityCode(e));
  }

  // ---------------------------------------------------------------------
  // Records
  // ---------------------------------------------------------------------

  function Joined(parts: seq<seq<Byte>>): seq<Byte> {
    if parts == [] then [] else parts[0] + Joined(parts[1..])
  }

  lemma {:induction false} RowIsJoined(row: Row, parts: seq<seq<Byte>>)
    requires |parts| == |row| && forall i :: 0 <= i < |row| ==> parts[i] == EncodeField(row[i])
    ensures EncodeRow(row) == Joined(parts)
  {
    hide EncodeField;
    if row == [] {
      assert parts == [];
    } else {
      RowIsJoined(row[1..], parts[1..]);
    }
  }

  function U64(v: nat): seq<Byte> { LittleEndian(v, 8) }
  function U32(v: nat): seq<Byte> { LittleEndian(v, 4) }
  function Bool(b: bool): seq<Byte> { U32(if b then 1 else 0) }

  /** The length, then the bytes. */
  function String(t: Text): seq<Byte> { U32(|t|) + t }

  lemma BufferLayout(b: Buffer)
    ensures EncodeRow(BufferRow(b)) ==
      Joined([U64(b.id), U64(b.generation), U32(DomainCode(b.domain)), U64(b.size), U64(b.alignment), U64(b.device),
              U64(b.deviceGeneration), U32(LocalityCode(b.locality)), U32(SupportCode(b.support)),
              U32(ProvenanceCode(b.provenance)), U32(LifecycleCode(b.lifecycle)), String(b.name)])
  {
    hide TagOf, LittleEndian, EncodeTexts, DOMAINS, PROVENANCES, SUPPORTS, STANDINGS, LIFECYCLES, ELIGIBILITIES;
    hide POLICIES, CLASSES, LOCALITIES;
    DomainCodes(b.domain);
    LocalityCodes(b.locality);
    SupportCodes(b.support);
    ProvenanceCodes(b.provenance);
    LifecycleCodes(b.lifecycle);
    RowIsJoined(BufferRow(b),
      [U64(b.id), U64(b.generation), U32(DomainCode(b.domain)), U64(b.size), U64(b.alignment), U64(b.device),
       U64(b.deviceGeneration), U32(LocalityCode(b.locality)), U32(SupportCode(b.support)),
       U32(ProvenanceCode(b.provenance)), U32(LifecycleCode(b.lifecycle)), String(b.name)]);
  }

  lemma DeviceLayout(d: Device)
    ensures EncodeRow(DeviceRow(d)) ==
      Joined([U64(d.id), U64(d.generation), String(d.name), String(d.computeCapability), Bool(d.peerMemorySupported),
              U32(SupportCode(d.support)), U32(ProvenanceCode(d.provenance))])
  {
    hide TagOf, LittleEndian, EncodeTexts, DOMAINS, PROVENANCES, SUPPORTS, STANDINGS, LIFECYCLES, ELIGIBILITIES;
    hide POLICIES, CLASSES, LOCALITIES;
    SupportCodes(d.support);
    ProvenanceCodes(d.provenance);
    RowIsJoined(DeviceRow(d),
      [U64(d.id), U64(d.generation), String(d.name), String(d.computeCapability), Bool(d.peerMemorySupported),
       U32(SupportCode(d.support)), U32(ProvenanceCode(d.provenance))]);
  }

  lemma EndpointLayout(e: Endpoint)
    ensures EncodeRow(EndpointRow(e)) ==
      Joined([U64(e.id), U64(e.generation), U32(ClassCode(e.endpointClass)), String(e.name), String(e.topologyHint),
              Bool(e.healthy), U64(e.provider), U32(SupportCode(e.support)), U32(ProvenanceCode(e.provenance))])
  {
    hide TagOf, LittleEndian, EncodeTexts, DOMAINS, PROVENANCES, SUPPORTS, STANDINGS, LIFECYCLES, ELIGIBILITIES;
    hide POLICIES, CLASSES, LOCALITIES;
    ClassCodes(e.endpointClass);
    SupportCodes(e.support);
    ProvenanceCodes(e.provenance);
    RowIsJoined(EndpointRow(e),
      [U64(e.id), U64(e.generation), U32(ClassCode(e.endpointClass)), String(e.name), String(e.topologyHint),
       Bool(e.healthy), U64(e.provider), U32(SupportCode(e.support)), U32(ProvenanceCode(e.provenance))]);
  }

  lemma NicLayout(n: Nic)
    ensures EncodeRow(NicRow(n)) ==
      Joined([U64(n.id), U64(n.generation), String(n.name), String(n.locator), Bool(n.rdmaCapable),
              Bool(n.directPathCapable), U64(n.provider), U32(SupportCode(n.support)),
              U32(ProvenanceCode(n.provenance))])
  {
    hide TagOf, LittleEndian, EncodeTexts, DOMAINS, PROVENANCES, SUPPORTS, STANDINGS, LIFECYCLES, ELIGIBILITIES;
    hide POLICIES, CLASSES, LOCALITIES;
    SupportCodes(n.support);
    ProvenanceCodes(n.provenance);
    RowIsJoined(NicRow(n),
      [U64(n.id), U64(n.generation), String(n.name), String(n.locator), Bool(n.rdmaCapable), Bool(n.directPathCapable),
       U64(n.provider), U32(SupportCode(n.support)), U32(ProvenanceCode(n.provenance))]);
  }

  lemma StorageLayout(e: StorageEndpoint)
    ensures EncodeRow(StorageRow(e)) ==
      Joined([U64(e.id), U64(e.generation), String(e.name), String(e.backendName), String(e.path),
              Bool(e.directPathCapable), U64(e.provider), U32(SupportCode(e.support)),
              U32(ProvenanceCode(e.provenance))])
  {
    hide TagOf, LittleEndian, EncodeTexts, DOMAINS, PROVENANCES, SUPPORTS, STANDINGS, LIFECYCLES, ELIGIBILITIES;
    hide POLICIES, CLASSES, LOCALITIES;
    SupportCodes(e.support);
    ProvenanceCodes(e.provenance);
    RowIsJoined(StorageRow(e),
      [U64(e.id), U64(e.generation), String(e.name), String(e.backendName), String(e.path), Bool(e.directPathCapable),
       U64(e.provider), U32(SupportCode(e.support)), U32(ProvenanceCode(e.provenance))]);
  }

  lemma ProviderLayout(p: Provider)
    ensures EncodeRow(ProviderRow(p)) ==
      Joined([U64(p.id), String(p.name), Bool(p.available), U32(SupportCode(p.support)),
              U32(ProvenanceCode(p.provenance))])
  {
    hide TagOf, LittleEndian, EncodeTexts, DOMAINS, PROVENANCES, SUPPORTS, STANDINGS, LIFECYCLES, ELIGIBILITIES;
    hide POLICIES, CLASSES, LOCALITIES;
    SupportCodes(p.support);
    ProvenanceCodes(p.provenance);
    RowIsJoined(ProviderRow(p),
      [U64(p.id), String(p.name), Bool(p.available), U32(SupportCode(p.support)), U32(ProvenanceCode(p.provenance))]);
  }

  lemma CapabilityLayout(c: Capability)
    ensures EncodeRow(CapabilityRow(c)) ==
      Joined([U64(c.id), String(c.provider), String(c.capability), String(c.value), U32(SupportCode(c.support)),
              U32(ProvenanceCode(c.provenance)), U64(c.authority.worker), U64(c.authority.boot),
              U64(c.authority.epoch), U64(c.freshness)])
  {
    hide TagOf, LittleEndian, EncodeTexts, DOMAINS, PROVENANCES, SUPPORTS, STANDINGS, LIFECYCLES, ELIGIBILITIES;
    hide POLICIES, CLASSES, LOCALITIES;
    SupportCodes(c.support);
    ProvenanceCodes(c.provenance);
    RowIsJoined(CapabilityRow(c),
      [U64(c.id), String(c.provider), String(c.capability), String(c.value), U32(SupportCode(c.support)),
       U32(ProvenanceCode(c.provenance)), U64(c.authority.worker), U64(c.authority.boot), U64(c.authority.epoch),
       U64(c.freshness)]);
  }

  lemma RegistrationLayout(r: Registration)
    ensures EncodeRow(RegistrationRow(r)) ==
      Joined([U64(r.id), U64(r.generation), U64(r.buffer), U64(r.bufferGeneration), U64(r.endpoint),
              U64(r.endpointGeneration), U64(r.provider), U64(r.authority.worker), U64(r.authority.boot),
              U64(r.authority.epoch), U32(StandingCode(r.state)), U32(SupportCode(r.support)),
              U32(ProvenanceCode(r.provenance)), Bool(r.duplicated), U64(r.freshness),
              U32(|r.requiredCapabilities|) + EncodeTexts(r.requiredCapabilities)])
  {
    hide TagOf, LittleEndian, EncodeTexts, DOMAINS, PROVENANCES, SUPPORTS, STANDINGS, LIFECYCLES, ELIGIBILITIES;
    hide POLICIES, CLASSES, LOCALITIES;
    StandingCodes(r.state);
    SupportCodes(r.support);
    ProvenanceCodes(r.provenance);
    RowIsJoined(RegistrationRow(r),
      [U64(r.id), U64(r.generation), U64(r.buffer), U64(r.bufferGeneration), U64(r.endpoint),
       U64(r.endpointGeneration), U64(r.provider), U64(r.authority.worker), U64(r.authority.boot),
       U64(r.authority.epoch), U32(StandingCode(r.state)), U32(SupportCode(r.support)),
       U32(ProvenanceCode(r.provenance)), Bool(r.duplicated), U64(r.freshness),
       U32(|r.requiredCapabilities|) + EncodeTexts(r.requiredCapabilities)]);
  }

  lemma PlanLayout(p: Plan)
    ensures EncodeRow(PlanRow(p)) ==
      Joined([U64(p.id), U64(p.pathGeneration), U64(p.generation), U64(p.source), U64(p.sourceGeneration),
              U64(p.destination), U64(p.destinationGeneration), U64(p.registrationId), U64(p.registrationGeneration),
              U64(p.registrationBufferGeneration), U32(PolicyCode(p.policy)), U64(p.expectedBytes),
              U32(EligibilityCode(p.eligibility)), U32(SupportCode(p.support)), U32(ProvenanceCode(p.provenance)),
              U32(p.copyCount), String(p.explanation), U64(p.epoch), U64(p.authority.worker), U64(p.authority.boot),
              U64(p.authority.epoch)])
  {
    hide TagOf, LittleEndian, EncodeTexts, DOMAINS, PROVENANCES, SUPPORTS, STANDINGS, LIFECYCLES, ELIGIBILITIES;
    hide POLICIES, CLASSES, LOCALITIES;
    PolicyCodes(p.policy);
    EligibilityCodes(p.eligibility);
    SupportCodes(p.support);
    ProvenanceCodes(p.provenance);
    RowIsJoined(PlanRow(p),
      [U64(p.id), U64(p.pathGeneration), U64(p.generation), U64(p.source), U64(p.sourceGeneration), U64(p.destination),
       U64(p.destinationGeneration), U64(p.registrationId), U64(p.registrationGeneration),
       U64(p.registrationBufferGeneration), U32(PolicyCode(p.policy)), U64(p.expectedBytes),
       U32(EligibilityCode(p.eligibility)), U32(SupportCode(p.support)), U32(ProvenanceCode(p.provenance)),
       U32(p.copyCount), String(p.explanation), U64(p.epoch), U64(p.authority.worker), U64(p.authority.boot),
       U64(p.authority.epoch)]);
  }

  // ---------------------------------------------------------------------
  // The state file
  // ---------------------------------------------------------------------

  lemma {:induction false} RowsAreJoined(rows: seq<Row>, parts: seq<seq<Byte>>)
    requires |parts| == |rows| && forall i :: 0 <= i < |rows| ==> parts[i] == EncodeRow(rows[i])
    ensures EncodeRows(rows) == Joined(parts)
  {
    hide EncodeRow;
    if rows == [] {
      assert parts == [];
    } else {
      RowsAreJoined(rows[1..], parts[1..]);
    }
  }

  /** How many rows, then the rows in ascending order of their keys. */
  lemma TableLayout(t: Table, ks: seq<nat>)
    requires ListsKeys(ks, t.Keys)
    ensures EncodeTable(t) == U32(|t|) + Joined(seq(|ks|, i requires 0 <= i < |ks| => EncodeRow(t[ks[i]])))
  {
    hide EncodeRow, EncodeRows, LittleEndian, Joined, Ascending;
    AscendingIsUnique(ks, SortedKeys(t.Keys), t.Keys);
    RowsAreJoined(RowsOf(t), seq(|ks|, i requires 0 <= i < |ks| => EncodeRow(t[ks[i]])));
  }

  lemma {:induction false} TablesAreJoined(ts: seq<Table>, parts: seq<seq<Byte>>)
    requires |parts| == |ts| && forall i :: 0 <= i < |ts| ==> parts[i] == EncodeTable(ts[i])
    ensures EncodeTables(ts) == Joined(parts)
  {
    hide EncodeTable;
    if ts == [] {
      assert parts == [];
    } else {
      TablesAreJoined(ts[1..], parts[1..]);
    }
  }

  /** The three counters, then the nine tables in this order. */
  lemma BodyLayout(s: State)
    requires WellFiled(s)
    ensures Body(s) ==
      Joined([U64(s.epoch), U64(s.nextId), U64(s.freshness)]) +
      Joined([EncodeTable(Mapped(BufferRow, s.buffers)), EncodeTable(Mapped(DeviceRow, s.devices)),
              EncodeTable(Mapped(EndpointRow, s.endpoints)), EncodeTable(Mapped(NicRow, s.nics)),
              EncodeTable(Mapped(StorageRow, s.storage)), EncodeTable(Mapped(ProviderRow, s.providers)),
              EncodeTable(Mapped(CapabilityRow, Rekeyed(s.capabilities))),
              EncodeTable(Mapped(RegistrationRow, s.registrations))]) +
      EncodeTable(Mapped(PlanRow, s.plans))
  {
    hide EncodeTable, EncodeTables, EncodeRow, LittleEndian, Joined, Mapped, Rekeyed;
    RowIsJoined(HeaderRow(s), [U64(s.epoch), U64(s.nextId), U64(s.freshness)]);
    TablesAreJoined(TablesOf(s),
      [EncodeTable(Mapped(BufferRow, s.buffers)), EncodeTable(Mapped(DeviceRow, s.devices)),
       EncodeTable(Mapped(EndpointRow, s.endpoints)), EncodeTable(Mapped(NicRow, s.nics)),
       EncodeTable(Mapped(StorageRow, s.storage)), EncodeTable(Mapped(ProviderRow, s.providers)),
       EncodeTable(Mapped(CapabilityRow, Rekeyed(s.capabilities))),
       EncodeTable(Mapped(RegistrationRow, s.registrations))]);
  }

  lemma FileLayout(s: State)
    requires WellFiled(s)
    ensures Persist(s) ==
      var content := Verdicts.Ascii("GDFSTATE") + [1, 0, 0, 0] + U64(|Body(s)|) + Body(s);
      content + U32(NumberOf(Checksum(content)))
  {
    hide Body, Checksum, NumberOf;
    assert FILE_MAGIC == Verdicts.Ascii("GDFSTATE");
    assert LittleEndian(FILE_VERSION, 4) == [1, 0, 0, 0];
  }

  /** The file starts as a state file does, whatever its version. */
  ghost predicate IsStateFile(file: seq<Byte>) { |file| >= 24 && file[..8] == Verdicts.Ascii("GDFSTATE") }

  /** The length the header declares is that of the body, at most 256 MiB. */
  ghost predicate HasDeclaredLength(file: seq<Byte>)
    requires |file| >= 24
  {
    Unsigned(file[12..20]) == |file| - 24 <= 256 * 1024 * 1024
  }

  /** A file is accepted exactly when it is a state file of version 1 with the length it declares, its checksum is
      right and its body can be read; a later version, and nothing else, is reported as unsupported. */
  lemma FileIsAcceptedIff(file: seq<Byte>)
    ensures Recover(file).Ok? <==>
              && IsStateFile(file) && Unsigned(file[8..12]) == 1 && HasDeclaredLength(file) && Intact(file)
              && RecoverBody(file[20..|file| - 4]).Ok?
    ensures Recover(file) == Err(UnsupportedError) <==> IsStateFile(file) && Unsigned(file[8..12]) > 1
    ensures Recover(file).Ok? ==> Recover(file) == RecoverBody(file[20..|file| - 4])
    ensures Recover(file).Err? ==> Recover(file).code in {UnsupportedError, PersistenceError}
  {
    hide Unsigned, Intact, RecoverBody;
    assert FILE_MAGIC == Verdicts.Ascii("GDFSTATE");
    if |file| >= 24 { BodyIsRefusedAsCorrupt(file[20..|file| - 4]); }
  }

  lemma BodyIsRefusedAsCorrupt(body: seq<Byte>)
    ensures RecoverBody(body).Err? ==> RecoverBody(body) == Err(PersistenceError)
  {
    hide ParseRow, ParseTables, ParsePlanTable, Restored;
  }

  // ---------------------------------------------------------------------
  // The frame
  // ---------------------------------------------------------------------

  function KindCode(kind: FrameProtocol.MessageType): Byte {
    match kind
    case Hello => 1
    case RegisterWorker => 2
    case PublishDevice => 3
    case PublishEndpoint => 4
    case PublishCapability => 5
    case RegisterBuffer => 6
    case Ready => 7
    case QueryState => 8
    case CreateBuffer => 9
    case Ack => 40
    case Nack => 41
  }

  /** The size is cut to 32 bits. */
  lemma FrameLayout(frame: FrameProtocol.Frame)
    ensures FrameProtocol.Encode(frame) ==
      var content := Verdicts.Ascii("GDF1") + [1, 0, KindCode(frame.kind), frame.flags] +
                     U32(|frame.payload| % 0x1_0000_0000) + frame.payload;
      content + U32(NumberOf(Checksum(content)))
  {
    hide Checksum, NumberOf;
    assert FrameProtocol.MAGIC == Verdicts.Ascii("GDF1");
    assert LittleEndian(FrameProtocol.VERSION, 2) == [1, 0];
    var content := Verdicts.Ascii("GDF1") + [1, 0, KindCode(frame.kind), frame.flags] +
                   U32(|frame.payload| % 0x1_0000_0000) + frame.payload;
    assert content == FrameProtocol.Preamble(frame) + frame.payload;
  }

  /** A four-byte field, lowest byte first. */
  lemma FourBytes(v: nat)
    ensures U32(v) == [v % 256, v / 256 % 256, v / 65536 % 256, v / 16777216 % 256]
  {
    assert v / 65536 == v / 256 / 256 && v / 16777216 == v / 65536 / 256;
    assert U32(v) == [v % 256] + LittleEndian(v / 256, 3);
    assert LittleEndian(v / 256, 3) == [v / 256 % 256] + LittleEndian(v / 65536, 2);
    assert LittleEndian(v / 65536, 2) == [v / 65536 % 256] + LittleEndian(v / 16777216, 1);
    assert LittleEndian(v / 16777216, 1) == [v / 16777216 % 256];
  }

  /** A wire is accepted, as this frame, exactly when it is spelled as above with a payload of at most 1 MiB. */
  lemma FrameIsAcceptedIff(wire: seq<Byte>, frame: FrameProtocol.Frame)
    ensures FrameProtocol.Decode(wire) == FrameProtocol.Accepted(frame) <==>
              && |frame.payload| <= 1024 * 1024
              && var content := Verdicts.Ascii("GDF1") + [1, 0, KindCode(frame.kind), frame.flags] +
                                U32(|frame.payload|) + frame.payload;
                 wire == content + U32(NumberOf(Checksum(content)))
  {
    hide Checksum, NumberOf, LittleEndian, FrameProtocol.Decode, FrameProtocol.Encode, KindCode;
    FrameLayout(frame);
    FrameProtocol.DecodeOfEncode(frame);
    if FrameProtocol.Decode(wire) == FrameProtocol.Accepted(frame) { FrameProtocol.EncodeOfDecode(wire, frame); }
  }
}
