# Verified model of the GPU direct-transfer fabric

The fabric's coordinator decides which buffers may be moved directly between accelerator memory and a NIC, a
storage endpoint or a peer, and it fences those decisions. When a buffer or an endpoint moves to a new generation, a
buffer is retired or the epoch advances, what was planned on the old facts can neither begin nor complete. When a
worker dies, what it had registered can no longer be used to begin. This project models three linked pieces of the
fabric, proves what they guarantee, and shows exactly where a guarantee one might expect ends.

- **The coordinator** (`src/coordinator.cpp`, `src/coordinator_lifecycle.cpp`). `CoordinatorModel` says what each
  operation does to the state. `Coordinator` is the object that runs: its operations update the state in place,
  walk tables in arbitrary order, and are proved to do what the model says. `Protocol` makes runs of them: every
  public operation is one atomic step, except planning, which takes a snapshot in one step and commits in a later
  one, with any steps of other callers between. The backend answers anything. `Operations` and `Service` tie the
  object to the runs: whatever is asked of it, it takes a step of the protocol.
  `Invariants`, `Steps`, `TransferSteps`, `Reachability` prove the inductive invariant; `Grants`, `Runs`, `Origins`,
  `Histories` the laws over steps and runs; `Lifetimes` carries them across restarts; `Safety`, `Planning`,
  `Liveness`, `Identity`, `Standing`, `Agreement`, `Ledger` are the theorems about whole runs, and `Scenarios` holds
  concrete ones. `FabricAnswers`, `PlanAnswers` and `TransferAnswers` say of every operation, in terms of the tables
  alone, exactly when it is admitted, what it answers and what it leaves; `Fencing` says exactly what ends a
  registration's standing and a plan's authority.
- **The path planner** (`src/path.cpp`), in `PathPlanner`: the gate-by-gate evaluation, equal to a declarative
  decision that is proved to be a conjunction of requirements and independent of evidence order; `Verdicts` writes
  its answers out, name by name and objection by objection.
- **The codecs** (`src/persistence.cpp`, `src/protocol.cpp`, framing in `src/transport.cpp`): `Bits`, `Crc32`,
  `FrameProtocol`, `Transport` for frames and streams; `Fields`, `Tables`, `Records`, `StateFile`, `StateFileIo`,
  `Recovery`, `Lifetimes`, `Restart`, `RestartScenarios` for the state file and for what a recovered coordinator
  can do; `Formats` and `CheckValue` fix both formats to the byte.

`dafny verify dfyconfig.toml` checks everything.

## Modelling decisions

- Ids, generations, epochs and the id and freshness counters are unbounded naturals: 64-bit wrap-around of a counter
  is not modelled. Widths are explicit where the code truncates: the frame's 32-bit length field, and the fields of
  the state file.
- A choice that depends on hash-table order (which of several maximal registrations, which entry of a name) is an
  argument of the model and a ghost result of the running operation, constrained only by what any walk guarantees.
- The backend's answers (`BackendGrant`, `BackendRun`) and the text of a plan's explanation are arguments.
- A run's states carry the planning calls that are between their two halves.
- A lifetime is a run of a new coordinator followed by any number of runs, each from what recovery makes of the state
  file of some state, within the limits of the format, of the run before. "In every run" below means in every run of
  every lifetime.
- Words of the checksum are sequences of 32 bits, least significant first, so that the bit-serial definition of
  section 8 of RFC 1952 is the reference.
- `include/gpudirectfabric/protocol.hpp:11-18` describes the checksum of a frame as lying before the payload; the
  code writes and reads it after the payload, and the model follows the code.
- In `register_buffer` the comparison of the two epochs at `src/coordinator.cpp:558-560` can never fail, because the
  whole authorities have just been compared; the model has no such branch.
- The state file's sections are described by schemas (`Records`), one per record type, listing the fields in file order
  with their widths, limits and number of enumerators.

## What turned out not to hold

- With boot 0 a dead worker incarnation can come back (`src/coordinator.cpp:102-106`, `126`): `BootZeroLivesTwice` is
  such a run, `DeadReturnsIffBootZero` the exact condition, and `LiveStretchIsContiguous` holds outside it.
- Backend-supplied registration ids are not checked (`src/coordinator.cpp:624-629`, `648`): in the run of
  `ReusedIdAdmitsOtherPair` a reused id overwrites another registration and `begin` accepts a plan on it.
  `AgesIffIdIsFresh` gives the exact condition under which registrations keep their identity.
- What a worker incarnation holds does not end with it. A live worker that registers at a higher boot
  (`src/coordinator.cpp:111-115`) leaves its registrations REGISTERED: in the run of `OutgrownHolderTransfers` a direct
  plan is committed, begun and completed on a registration whose authority is gone. `HoldersStayLiveIff` gives the exact
  step that causes it, and in runs without such a step every registration relied on has a live authority
  (`RegisteredHolderIsLive`, `CommittedHolderIsLive`, `BegunHolderIsLive`).
- A worker's death (`src/coordinator.cpp:131-142`) leaves plans alone, so an attempt in flight can still complete:
  `TransferOutlivesDeath` is such a run; `CompleteAfterDeath` and `BeginAfterDeath` say exactly what a death stops.
- The decoder of the plan section overwrites its own loop bound (`src/persistence.cpp:539`, `566`): the run of
  `StagedPlanIsLost` ends in a state that its file does not restore. `RecoverOfPersist` and `RestartRestores` give the
  exact conditions.
- Recovery keeps the epoch and forgets the recorded boots (`src/persistence.cpp:346-349`), so a dead incarnation can
  return after a restart: `RestartRevives` is such a lifetime, `SeenReturnsIffEpochKept` the exact condition.

## Model

| member | source | states |
|---|---|---|
| Crc32.TableChecksum | src/protocol.cpp:8-22 | The byte-at-a-time table loop computes the bit-at-a-time checksum of section 8 of RFC 1952 on every byte string. |
| Crc32.BuildTable | src/persistence.cpp:20-30 | Entry i of the table is the register after dividing the eight bits of i. |
| Crc32.TableIdentity | src/persistence.cpp:31-33 | Eight shifts of a register are the table entry of its low byte, exclusive-or the register shifted by eight: why the table form is right. |
| Crc32.BurstChangesChecksum | src/protocol.cpp:8-22 | Two equal-length strings that differ, and only within four consecutive bytes, have different checksums. |
| Crc32.IntactIffSealed | src/protocol.cpp:138-147 | A string passes the stored-checksum test exactly when it is some content followed by that content's checksum. |
| Crc32.BurstBreaksSeal | src/persistence.cpp:334-339 | Any change within four consecutive bytes of a string that passes the test, checksum bytes included, makes it fail. |
| FrameProtocol.EncodeFrame | src/protocol.cpp:99-111 | Pushing bytes one after the other yields the wire format, with the length field cut to 32 bits. |
| FrameProtocol.DecodeFrame | src/protocol.cpp:113-170 | The checks in order give the declarative decoder, error by error. |
| FrameProtocol.DecodeOfEncode | src/protocol.cpp:99-170 | A frame decodes back to itself exactly when its payload is at most 1 MiB. |
| FrameProtocol.EncodeOfDecode | src/protocol.cpp:99-170 | Every accepted wire is the encoding of the frame it decodes to. |
| FrameProtocol.DamagedFrameIsRejected | src/protocol.cpp:113-170 | An encoded frame altered within any four consecutive bytes is rejected. |
| Transport.TcpConn.RecvAll | src/transport.cpp:24-34 | However small the pieces, exactly n bytes are taken, or the stream ends first. |
| Transport.TcpConn.RecvFrame | src/transport.cpp:122-151 | Header first, then the declared payload: the result and the unread rest are those of the stream's first frame. |
| Transport.TcpConn.SendFrame | src/transport.cpp:109-120 | A prefix of the encoded frame goes out, all of it exactly when the send succeeds. |
| Transport.TcpConn.ReceiveUntilFailure | src/transport.cpp:122-151 | Receiving until a receive fails yields the frames of the drained stream and leaves its rest. |
| Transport.ReceiveOfEncode | src/transport.cpp:122-151 | Receiving from an encoded frame followed by anything gives that frame and leaves exactly what follows. |
| Transport.EncodeOfReceive | src/transport.cpp:122-151 | A successful receive took exactly the encoding of its frame off the front. |
| Transport.DrainOfEncodeAll | src/transport.cpp:122-151 | Any concatenation of encoded frames is split back into the same list, to the last byte. |
| Transport.DrainedPrefix | src/transport.cpp:122-151 | On any stream, the reported frames are exactly the encoded frames at its front, and what follows them is refused. |
| PathPlanner.FindRegistration | src/path.cpp:81-89 | The loop with a running best finds the newest registration of the pair, the first among equals. |
| PathPlanner.LatestEndpoint | src/path.cpp:65-71 | The loop finds the newest record of the endpoint. |
| PathPlanner.LatestDevice | src/path.cpp:73-79 | The loop finds the newest record of the device. |
| PathPlanner.FindCapability | src/path.cpp:108-114 | The first observation of the capability, if any. |
| PathPlanner.HostStagingAvailable | src/path.cpp:91-99 | True exactly when some current-epoch observation evidences host staging. |
| PathPlanner.FindProvider | src/path.cpp:101-106 | True exactly when an available, supported provider has that name. |
| PathPlanner.CheckAuthority | src/path.cpp:56-63 | True exactly when the epoch is current and the worker, if any, is listed at that boot. |
| PathPlanner.Evaluate | src/path.cpp:144-362 | The gate-by-gate evaluation, updating the decision as it goes, equals the declarative decision on all fields. |
| PathPlanner.DirectIffValid | src/path.cpp:155-337 | Direct exactly when every requirement holds together; undegraded exactly when the registration is also real. |
| PathPlanner.RefusalNamesFirstFailure | src/path.cpp:151-325 | A refusal carries the outcome of the first failing requirement, and its findings are the met ones before it and exactly that failure. |
| PathPlanner.FallbackIffStageable | src/path.cpp:338-362 | Staging is offered exactly when direct fails, the policy admits it, the destination is usable and staging is evidenced. |
| PathPlanner.DecisionIgnoresOrder | src/path.cpp:56-114 | On evidence without ties the decision does not depend on the order of any list. |
| Verdicts.NamesForClass | src/path.cpp:19-35 | The literal names of the provider and the capability that speak for each class of endpoint. |
| Verdicts.DirectIffVouched | src/path.cpp:258-337 | For each class of endpoint, a path is direct exactly when everything else is in order, a provider of the literal name is available and supported, and its observation of the literal capability is "true" and supported. |
| Verdicts.OutcomeIsFirstObjection | src/path.cpp:155-325 | The outcome of the direct path is the first objection of a written-out list (size: NO_VALID_PATH, unhealthy: ENDPOINT_STALE, and so on); without one it is direct, in full exactly if the registration is real. |
| Verdicts.RequirementsAreReported | src/path.cpp:155-323 | Which requirement each finding names, met and failed, in order. |
| Verdicts.FindingsFollowOrder | src/path.cpp:151-325 | The findings of every decision: the requirements in order, all met but the last, which is met exactly if there is no objection, and then there are twelve. |
| Verdicts.NewestIsFirst | src/path.cpp:81-89 | Of several newest registrations of a pair the one listed first is taken. |
| Verdicts.CapabilityIsFirst | src/path.cpp:108-114 | Of several observations of a capability the one listed first is taken. |
| Verdicts.ClassesOfPaths | src/path.cpp:37-54 | The class of the direct path and of the staged one, for every direction and class of endpoint. |
| Verdicts.StagingIffObserved | src/path.cpp:91-99 | Staging counts as evidenced exactly by a supported observation "host_staging" = "true" of the current epoch for a destination that is there, healthy and of a known class. |
| Verdicts.DecisionCarries | src/path.cpp:325-362 | Eligibility, candidates, quality and flags of the three kinds of decision, and the two generations it was taken on. |
| Agreement.DecisionIsDetermined | src/coordinator.cpp:730-788 | In every state of every run, every snapshot of the state, in whatever order, leads to the same decision. |
| Agreement.PlannerAgreesWithCoordinator | src/coordinator.cpp:829-838 | In every state of every run the planner's newest-then-REGISTERED and the commit's newest-among-REGISTERED pick the same registration; liveness is judged alike; the stale-generation branch cannot be taken. |
| Agreement.SelectionsAgree | src/path.cpp:288-300 | The same, for every sound state. |
| Agreement.RegisteredIsNeverStale | src/path.cpp:297-304 | A REGISTERED newest registration always matches both generations, and is usable exactly when its authority is live. |
| Agreement.RegisteredIsUniqueAndCurrent | src/coordinator.cpp:525-655 | In every state of every run a REGISTERED registration is the only one of its pair, strictly the newest, for an active buffer, with both generations and the epoch current and its worker live at that boot or a later one. |
| Liveness.LiveIffEvidenced | src/path.cpp:56-63 | The planner's authority test on any snapshot equals the coordinator's liveness test. |
| Liveness.LiveStretchIsContiguous | src/coordinator.cpp:59-159 | An authority that is live at two moments of a run is live at every moment between, unless no boot above 0 is on record for its worker at that moment. |
| Liveness.DeadReturnsIffBootZero | src/coordinator.cpp:101-129 | A dead incarnation of this epoch can register again exactly when no boot above 0 was recorded for its worker. |
| Liveness.BootZeroLivesTwice | src/coordinator.cpp:125-128 | A three-step run in which an incarnation with boot 0 lives, dies and lives again. |
| Liveness.DeadOwnerIsNotDirect | src/path.cpp:301-304 | No snapshot of a sound state supports a direct path from a buffer whose worker owner is not live. |
| Liveness.DeadOwnerFreezesBuffer | src/coordinator.cpp:206-240 | Once a buffer's worker owner is not live and a boot above 0 is on record for it, no later step of the run changes the record, and evaluation never again answers direct for it. |
| Safety.AuthoritativeIffCurrent | src/coordinator.cpp:67-88 | In every state of every run a direct plan is authoritative exactly when it was made since the last restart, its epoch and generations are the current ones and its source is active; for any plan, authority implies the rechecks of begin. |
| Safety.CommittedPlanIsBound | src/coordinator.cpp:805-862 | A direct plan, at the commit and whatever happened since the snapshot, binds a registration REGISTERED right then for exactly its pair, with all generations current. |
| Safety.CompletedTransferWasFenced | src/coordinator_lifecycle.cpp:115-172 | When a direct transfer completes, its plan was committed and then begun in the run, and in every state from commit through completion epoch and generations were the plan's and the source active; with fresh ids its registration was REGISTERED, unchanged and current, in every state from commit to begin. |
| Safety.BegunOnOwnRegistration | src/coordinator_lifecycle.cpp:56-71 | With fresh ids, every admitted begin of a direct plan uses the newest registration of the plan's own pair, all generations current. |
| Planning.PlanStemsFromSnapshot | src/coordinator.cpp:790-851 | Every committed plan was justified by a snapshot of an earlier state of the run, direct exactly if that snapshot met every requirement, and from the snapshot to the commit both generations were the plan's in every state. |
| Planning.CallWasSnapshot | src/coordinator.cpp:774-797 | Every decision waiting to be committed is the planner's answer on a snapshot of an earlier state. |
| Identity.NeverRegisteredAgain | src/coordinator.cpp:67-88 | With fresh ids, a registration that has left REGISTERED never returns to it in the run. |
| Identity.AgesIffIdIsFresh | src/coordinator.cpp:604-655 | A step of a sound coordinator leaves every registration what it was or weaker exactly when it does not record a registration under a taken id. |
| Identity.GrantIsNewest | src/coordinator.cpp:630-648 | A granted registration is REGISTERED, joins the requested pair and exceeds every generation the pair has had. |
| Identity.ReusedIdMisleadsBegin | src/coordinator_lifecycle.cpp:65-71 | Whenever a backend gives a begun-able plan's registration id to the first registration of another pair, begin still admits the plan, now on the other pair's registration. |
| Scenarios.ReusedIdAdmitsOtherPair | src/coordinator.cpp:624-648 | A twelve-step run of a new coordinator in which a backend repeats an id and begin admits a plan on the registration of another buffer. |
| Scenarios.OutgrownHolderTransfers | src/coordinator.cpp:111-115 | A twelve-step run in which a worker moves to a higher boot, its registration stays REGISTERED under the dead authority, and a direct plan is committed on it, begun and completed. |
| Scenarios.TransferOutlivesDeath | src/coordinator.cpp:131-142 | A twelve-step run in which a worker dies while its transfer is in flight, and the transfer completes. |
| Standing.HoldersStayLiveIff | src/coordinator.cpp:93-159 | From a sound state in which every REGISTERED registration has a live authority, a step breaks that exactly when it registers a live worker at a strictly higher boot while the worker holds a REGISTERED registration. |
| Standing.RegisteredHolderIsLive | src/coordinator.cpp:525-655 | In every run without such a step, every REGISTERED registration has a live authority in every state. |
| Standing.CommittedHolderIsLive | src/coordinator.cpp:829-862 | In every run without such a step, a direct plan is committed only on a registration whose authority is live. |
| Standing.BegunHolderIsLive | src/coordinator_lifecycle.cpp:56-71 | In every run without such a step, with fresh ids, a direct transfer begins only on the newest registration of its own pair, with a live authority. |
| Standing.BeginAfterDeath | src/coordinator.cpp:131-142 | A begin admitted now is admitted after a worker's death exactly when that worker neither asks for it nor holds the plan's registration. |
| Standing.CompleteAfterDeath | src/coordinator_lifecycle.cpp:136-143 | An attempt in flight that can complete now can complete after a worker's death exactly when that worker does not ask for it. |
| Standing.BeginAfterReboot | src/coordinator_lifecycle.cpp:44-71 | A begin admitted now is admitted after a live worker's move to a higher boot exactly when that worker does not ask for it, whoever holds the registration. |
| Standing.NothingAfterEpoch | src/coordinator.cpp:144-159 | After a new epoch no earlier plan begins and no attempt in flight completes. |
| Ledger.ReceiptsAreHonest | src/coordinator_lifecycle.cpp:140-185 | Every receipt restates its attempt; a COMPLETED one moved the plan's expected bytes unless those were 0; claimed integrity comes from a checked and passed attempt and, when COMPLETED, has a passed verification of the same byte count. |
| Ledger.SettlementIsFinal | src/coordinator_lifecycle.cpp:115-207 | COMPLETED and CANCELLED are absorbing, and a committed attempt and its receipt never change again. |
| TransferAnswers.BeginAnswer | src/coordinator_lifecycle.cpp:30-113 | A transfer begins exactly when its plan is filed, authoritative and of the current epoch, both generations are current, its registration, if any, is REGISTERED at the plan's generation, there is room, and a worker caller is live and owns the plan unless no worker does; then exactly one attempt, as the backend reports it, is filed. |
| TransferAnswers.BeginRefusal | src/coordinator_lifecycle.cpp:33-73 | Which code a refused begin answers: the first objection in order. |
| TransferAnswers.AttemptsAreRightful | src/coordinator_lifecycle.cpp:44-50 | In every state of every run, an attempt of a worker is on a plan of that same incarnation or of no worker. |
| TransferAnswers.CompletionAnswer | src/coordinator_lifecycle.cpp:115-185 | For an attempt in flight: a COMPLETED receipt exactly when caller and plan are in order, the data is not corrupt and all bytes arrived; IntegrityFailure exactly when it is checked and not passed; a passed verification filed exactly when it completed and was checked, a failed one exactly when it is corrupt; the whole new ledger. |
| TransferAnswers.LateCompletionAnswer | src/coordinator_lifecycle.cpp:120-134 | For anything else: NOT_FOUND if unknown, the committed receipt again, a refusal if cancelled, a FAILED receipt if it failed. |
| TransferAnswers.CancelAnswer | src/coordinator_lifecycle.cpp:187-207 | Cancelled exactly when not committed and the caller may settle it; the receipt and all that changes. |
| TransferAnswers.VerifyAnswer | src/coordinator_lifecycle.cpp:209-228 | A verification as given, under the next id, for exactly the known attempts. |
| PlanAnswers.CommitAnswer | src/coordinator.cpp:799-915 | A decision becomes a plan exactly when it offers a path, there is room, both objects are there at its generations and a direct path has a REGISTERED registration; the plan's fields; its stages lead from source to destination, each starting where the one before ended, as many as the copy count; a staged plan's intermediate buffer is new, pinned, active, of the requested size and the source's owner's. |
| PlanAnswers.CommitRefusal | src/coordinator.cpp:799-838 | Which code a refused commit answers: the decision's, then the first objection in order. |
| PlanAnswers.RefusalCodes | src/coordinator.cpp:12-31 | The code of each outcome that offers no path. |
| PlanAnswers.PlansAreStaged | src/coordinator.cpp:876-910 | In every state of every run, the stages of every plan made since the last restart lead from its source through its intermediate buffers to its destination, and are direct exactly when the plan is. |
| Fencing.StandingEndsIff | src/coordinator.cpp:67-88 | In a step of a sound coordinator a REGISTERED registration stops being so exactly if its buffer was advanced or retired, its endpoint advanced, its worker died, the epoch advanced, it was deregistered, or its id was given to another; otherwise it is unchanged. |
| Fencing.AuthorityEndsIff | src/coordinator.cpp:67-88 | An authoritative plan loses its authority exactly if its source was advanced or retired, its destination advanced or the epoch advanced; otherwise it is unchanged. |
| Fencing.StandingsEvolveInRun | src/coordinator.cpp:67-159 | In every step of every run a REGISTERED registration that is not REGISTERED afterwards was retired or overwritten, belongs to a worker that is gone, or no longer matches buffer, endpoint or epoch. |
| Fencing.StandingWasEnded | src/coordinator.cpp:67-159 | In every run a registration that is REGISTERED at one moment and not at a later one lost its standing in a step between that ended it. |
| Fencing.AuthorityWasEnded | src/coordinator.cpp:67-159 | In every run a plan that is authoritative at one moment and not at a later one lost its authority in a step between that ended it. |
| Fencing.AdvanceBufferAnswer | src/coordinator.cpp:206-222 | Admitted exactly for who may manage the buffer; its generation moves by one, exactly its own registrations and plans are fenced, and every other record stays. |
| Fencing.RetireBufferAnswer | src/coordinator.cpp:224-240 | The same, with the lifecycle in place of the generation. |
| Fencing.AdvanceEndpointAnswer | src/coordinator.cpp:328-344 | The same for an endpoint and what depends on it. |
| Fencing.RegisterAnswer | src/coordinator.cpp:525-655 | Refused without effect unless eligible; with a REGISTERED registration of the pair, that one as a duplicate or a conflict; without one, the backend decides and its grant is recorded for the pair at the next generation. |
| Fencing.RegisterRefusal | src/coordinator.cpp:525-562 | Which code an ineligible request is refused with: the first objection in order. |
| Fencing.DeregisterIsIdempotent | src/coordinator.cpp:657-668 | Deregistering what is retired changes nothing and succeeds; what is unknown is NOT_FOUND. |
| Fencing.DeregisterAnswer | src/coordinator.cpp:657-711 | Only the live owner retires a registration, and only the newest of its pair; what a worker that is gone left behind, anyone may. |
| FabricAnswers.RegisterWorkerAnswer | src/coordinator.cpp:93-129 | Admitted exactly in the current epoch, under an id, with a boot above the record, equal to it while live, or any while nothing above 0 is on record; then live at that boot and nothing else changes. |
| FabricAnswers.MarkWorkerDeadAnswer | src/coordinator.cpp:131-142 | Exactly that worker leaves the table; besides it only registrations change. |
| FabricAnswers.AdvanceEpochAnswer | src/coordinator.cpp:144-159 | Next epoch, nobody live; registrations that were not active are untouched. |
| FabricAnswers.CreateBufferAnswer | src/coordinator.cpp:175-204 | Admitted exactly with an alignment if it has a size, with room, for an owner that is here; the record as asked for. |
| FabricAnswers.AddDeviceAnswer | src/coordinator.cpp:268-285 | Admitted exactly for an owner that is here; the record as asked for. |
| FabricAnswers.AddEndpointAnswer | src/coordinator.cpp:304-326 | Admitted exactly with room and for an owner that is here; the record as asked for. |
| FabricAnswers.SetEndpointHealthAnswer | src/coordinator.cpp:346-359 | Admitted exactly for who may manage the endpoint; health and freshness change and nothing else. |
| FabricAnswers.AddNicAnswer | src/coordinator.cpp:375-383 | A record keeps the id it brings or gets the next one; generation 0 becomes 1. |
| FabricAnswers.AddStorageAnswer | src/coordinator.cpp:399-407 | The same for storage. |
| FabricAnswers.AddProviderAnswer | src/coordinator.cpp:426-449 | Refused exactly without a name; one entry of that name says what was given, every other stays. |
| FabricAnswers.PublishCapabilityAnswer | src/coordinator.cpp:465-489 | Admitted exactly for who is here; the observation as given, in the slot of the one it replaces. |
| FabricAnswers.RevokeCapabilityAnswer | src/coordinator.cpp:491-505 | The observation goes exactly when its publisher, if a worker, takes it back while here; without one nothing happens. |
| Invariants.InitialStateSound | src/coordinator.cpp:34-36 | A new coordinator satisfies the invariant. |
| Reachability.StepKeeps | src/coordinator.cpp:45-711 | Every action of every caller, with every backend answer and table order, keeps the invariant and obeys the two-state laws. |
| Runs.RunIsLawful | src/coordinator.cpp:34-36 | Every state of every run from a sound state is sound, and every step obeys the laws. |
| Lifetimes.LifeIsLawful | src/persistence.cpp:346-580 | The same for every run of every lifetime, which also starts without any authority. |
| Lifetimes.RestartIsDurable | src/persistence.cpp:311-580 | A restart restores the durable part of the state, with all or some of its plans, none of them authoritative. |
| Lifetimes.RestartIsSound | src/persistence.cpp:341-580 | What a restart restores of a sound state is sound and powerless. |
| Runs.FreshIdsAge | src/coordinator.cpp:624-629 | If no recorded registration takes an existing id, registrations only ever weaken over the run. |
| Steps.RegisterWorkerKeeps | src/coordinator.cpp:93-129 | Registering a worker keeps invariant and laws. |
| Steps.MarkWorkerDeadKeeps | src/coordinator.cpp:131-142 | A worker's death keeps invariant and laws: all it held is marked. |
| Steps.AdvanceEpochKeeps | src/coordinator.cpp:144-159 | A new epoch keeps invariant and laws: what was granted in the old one is fenced. |
| Steps.CreateBufferKeeps | src/coordinator.cpp:175-204 | Creating a buffer keeps invariant and laws. |
| Steps.AdvanceBufferKeeps | src/coordinator.cpp:206-222 | A new buffer generation keeps invariant and laws: its registrations and plans are fenced, and no other plan loses its authority. |
| Steps.RetireBufferKeeps | src/coordinator.cpp:224-240 | Retiring a buffer keeps invariant and laws. |
| Steps.AddEndpointKeeps | src/coordinator.cpp:304-326 | Adding an endpoint keeps invariant and laws. |
| Steps.AdvanceEndpointKeeps | src/coordinator.cpp:328-344 | A new endpoint generation keeps invariant and laws. |
| Steps.SetEndpointHealthKeeps | src/coordinator.cpp:346-359 | A change of health keeps invariant and laws. |
| Steps.PublishCapabilityKeeps | src/coordinator.cpp:465-489 | Publishing keeps at most one observation per provider and capability. |
| Steps.RevokeCapabilityKeeps | src/coordinator.cpp:491-505 | Revoking keeps invariant and laws. |
| TransferSteps.RegisterBufferKeeps | src/coordinator.cpp:525-655 | Registration, with any backend answer, keeps invariant and laws. |
| TransferSteps.DeregisterBufferKeeps | src/coordinator.cpp:657-711 | Deregistration keeps invariant and laws. |
| TransferSteps.CommitPlanKeeps | src/coordinator.cpp:805-915 | Committing any decision, however old, keeps invariant and laws. |
| TransferSteps.BeginTransferKeeps | src/coordinator_lifecycle.cpp:30-113 | Beginning a transfer keeps invariant and laws. |
| TransferSteps.CompleteTransferKeeps | src/coordinator_lifecycle.cpp:115-185 | Completion keeps invariant and laws. |
| TransferSteps.CancelTransferKeeps | src/coordinator_lifecycle.cpp:187-207 | Cancellation, also of an uncommitted failed attempt, keeps invariant and laws. |
| TransferSteps.VerifyTransferKeeps | src/coordinator_lifecycle.cpp:209-228 | Recording a verification keeps invariant and laws. |
| Origins.PlanWasMade | src/coordinator.cpp:842-914 | In a run from any state without authoritative plans, every authoritative plan was committed by a step of the run. |
| Origins.RegistrationWasMade | src/coordinator.cpp:630-648 | In a run from any state without REGISTERED registrations, every REGISTERED one was recorded by a step of the run. |
| Grants.OthersGrantNothing | src/coordinator.cpp:67-88 | From any state, a step other than registration and planning makes nothing REGISTERED or authoritative and leaves registrations only weaker. |
| Grants.RegistrationGrants | src/coordinator.cpp:563-655 | From any state, registration makes at most its own record REGISTERED, under the backend's id or the next one, and touches no plan. |
| Grants.PlanningAuthorizes | src/coordinator.cpp:805-915 | From any state, a commit makes at most its own plan authoritative and touches no registration. |
| Coordinator.Coordinator.RegisterWorker | src/coordinator.cpp:93-129 | Stale epochs, nil ids and stale or reused boots are refused, a reconnection changes nothing, and otherwise boot and maximum are recorded, as in the model's step. |
| Coordinator.Coordinator.MarkWorkerDead | src/coordinator.cpp:131-142 | Erases the worker and marks exactly its registrations, whatever the order of the walk. |
| Coordinator.Coordinator.AdvanceEpoch | src/coordinator.cpp:144-159 | Next epoch, no live worker, active registrations marked, every plan without authority. |
| Coordinator.Coordinator.WorkerLive | src/coordinator.cpp:59-65 | The lookup decides liveness. |
| Coordinator.Coordinator.InvalidateBufferDependents | src/coordinator.cpp:67-77 | Marks exactly the buffer's registrations and clears exactly its plans. |
| Coordinator.Coordinator.InvalidateEndpointDependents | src/coordinator.cpp:79-88 | Marks exactly the endpoint's registrations and clears exactly its plans. |
| Coordinator.Coordinator.CreateBuffer | src/coordinator.cpp:175-204 | New record under the next id, or the first objection. |
| Coordinator.Coordinator.AdvanceBufferGeneration | src/coordinator.cpp:206-222 | Generation and freshness advance and the dependents are fenced, only for the live owner of a worker-owned buffer. |
| Coordinator.Coordinator.RetireBuffer | src/coordinator.cpp:224-240 | Lifecycle RETIRED and the dependents fenced, under the same owner check. |
| Coordinator.Coordinator.AddEndpoint | src/coordinator.cpp:304-326 | New record under the next id, or the first objection. |
| Coordinator.Coordinator.AdvanceEndpointGeneration | src/coordinator.cpp:328-344 | Generation advances and the dependents are fenced. |
| Coordinator.Coordinator.SetEndpointHealth | src/coordinator.cpp:346-359 | Only health and freshness change, for the live owner. |
| Coordinator.Coordinator.AddProvider | src/coordinator.cpp:426-449 | Updates an entry of that name, or adds one. |
| Coordinator.Coordinator.PublishCapability | src/coordinator.cpp:465-489 | Replaces the observation in its slot under a new id, or adds one. |
| Coordinator.Coordinator.RevokeCapability | src/coordinator.cpp:491-505 | Drops the observation if its owner allows. |
| Coordinator.Coordinator.RegisterBuffer | src/coordinator.cpp:525-655 | With the newest registration a walk finds: duplicate returned, conflict refused, otherwise the grant recorded one generation up. |
| Coordinator.Coordinator.DeregisterBuffer | src/coordinator.cpp:657-711 | Idempotent, refused when stale or not the owner's, otherwise retired and the buffer's note cleared. |
| Coordinator.Coordinator.BuildEvidence | src/coordinator.cpp:730-772 | Some listing of every table, with the request's records or their stand-ins. |
| Coordinator.Coordinator.EvaluatePath | src/coordinator.cpp:774-788 | The planner's decision on a snapshot of the state; in a sound state, the decision that every snapshot of it gives. |
| Coordinator.Coordinator.CommitPlan | src/coordinator.cpp:799-915 | The recheck, the newest REGISTERED registration of the pair, and the plan with its stages and staging buffer. |
| Coordinator.Coordinator.BeginTransfer | src/coordinator_lifecycle.cpp:30-113 | The checks in order, then the attempt with the backend's outcome. |
| Coordinator.Coordinator.CompleteTransfer | src/coordinator_lifecycle.cpp:115-185 | Idempotent on committed attempts; otherwise authority, plan, integrity and byte count decide. |
| Coordinator.Coordinator.CancelTransfer | src/coordinator_lifecycle.cpp:187-207 | Refused after completion; otherwise the attempt is CANCELLED with a receipt. |
| Coordinator.Coordinator.VerifyTransfer | src/coordinator_lifecycle.cpp:209-228 | A verification record for any known attempt. |
| Coordinator.FindLatest | src/coordinator.cpp:563-569 | Whatever the order of the walk, an entry of the pair that no other exceeds in generation. |
| Service.Session.Serve | src/coordinator.cpp:774-915 | Whatever is asked of the object, it takes a step of the protocol, keeps its state sound and obeys the two-state laws; the two halves of planning are separate requests. |
| Service.ServeAll | src/coordinator.cpp:34-36 | A new object that serves any sequence of requests goes through a run of a new coordinator and ends in its last state, so every theorem about runs holds of it. |
| Fields.FieldReadsBack | src/persistence.cpp:36-108 | A field within its limits, followed by anything, parses back to itself and leaves what follows. |
| Fields.RowReadsBack | src/persistence.cpp:124-137 | The same for a record. |
| Tables.TableReadsBack | src/persistence.cpp:119-137 | A table written in ascending order of id parses back to itself. |
| Tables.AscendingIsUnique | src/persistence.cpp:119-122 | There is only one ascending listing of a set of ids. |
| Records.BufferReadsBack | src/persistence.cpp:355-378 | A buffer's row restores the buffer without owner, registration note and freshness. |
| Records.DeviceReadsBack | src/persistence.cpp:385-397 | A device's row restores the device without owner and freshness. |
| Records.EndpointReadsBack | src/persistence.cpp:402-418 | An endpoint's row restores the endpoint without owner and freshness. |
| Records.CapabilityReadsBack | src/persistence.cpp:475-490 | A capability's row restores the capability in full. |
| Records.RegistrationReadsBack | src/persistence.cpp:495-535 | A registration's row restores it without handle, REGISTERED demoted to REVALIDATION_REQUIRED. |
| Records.PlanReadsBack | src/persistence.cpp:540-578 | A plan's row restores the plan without stages and authority. |
| StateFileIo.PersistBytes | src/persistence.cpp:112-295 | The bytes written are a function of the state alone, whatever order the tables are walked in. |
| StateFileIo.RecoverBytes | src/persistence.cpp:315-340 | The checks in order, then the sections, give the declarative recovery. |
| StateFileIo.Reader.GetText | src/persistence.cpp:83-91 | Length, limit and bounds, then the bytes, with the cursor past them or the failure flag set. |
| StateFileIo.Reader.GetTable | src/persistence.cpp:351-378 | A bounded count, then rows filed by id, a later over an earlier one. |
| StateFileIo.Reader.GetPlans | src/persistence.cpp:536-579 | The plan loop with its bound overwritten by each row's copy count. |
| StateFile.FrameReadsBack | src/persistence.cpp:287-340 | Recovery of a framed body of at most 256 MiB is recovery of the body. |
| StateFile.DamagedFileIsRefused | src/persistence.cpp:334-339 | An accepted file altered within any four consecutive bytes is refused. |
| CheckValue.ShiftInWord | src/protocol.cpp:10-18 | One step of the reference division is the program's step on a 32-bit word: shift right, exclusive-or 0xEDB88320 if the bits differ. |
| CheckValue.ChecksumOfNineDigits | src/protocol.cpp:8-22 | The checksum of the bytes "123456789" is 0xCBF43926. |
| Formats.FrameLayout | src/protocol.cpp:99-111 | A frame byte by byte: GDF1, version 1, the type byte of its kind, flags, length, payload, checksum. |
| Formats.FrameIsAcceptedIff | src/protocol.cpp:113-170 | A wire is accepted as a frame exactly when it is spelled as that frame with a payload of at most 1 MiB. |
| Formats.FourBytes | src/persistence.cpp:36-41 | A four-byte field lists its bytes from the lowest up. |
| Formats.FileLayout | src/persistence.cpp:287-295 | The file byte by byte: GDFSTATE, version 1, the length of the body, the body, the checksum. |
| Formats.FileIsAcceptedIff | src/persistence.cpp:315-340 | Accepted exactly with the magic, version 1, the declared length within 256 MiB, the right checksum and a readable body; unsupported exactly with a later version. |
| Formats.BodyLayout | src/persistence.cpp:112-285 | Epoch, next id and freshness, then the nine tables in order. |
| Formats.TableLayout | src/persistence.cpp:119-137 | The number of rows, then the rows in ascending order of id. |
| Formats.BufferLayout | src/persistence.cpp:124-137 | The fields of a buffer in file order, with their widths and enumerator codes. |
| Formats.DeviceLayout | src/persistence.cpp:140-151 | The same for a device. |
| Formats.EndpointLayout | src/persistence.cpp:154-167 | The same for an endpoint. |
| Formats.NicLayout | src/persistence.cpp:170-183 | The same for a NIC. |
| Formats.StorageLayout | src/persistence.cpp:186-199 | The same for a storage endpoint. |
| Formats.ProviderLayout | src/persistence.cpp:202-211 | The same for a provider. |
| Formats.CapabilityLayout | src/persistence.cpp:214-230 | The same for a capability. |
| Formats.RegistrationLayout | src/persistence.cpp:235-256 | The same for a registration. |
| Formats.PlanLayout | src/persistence.cpp:260-285 | The same for a plan. |
| Formats.DomainCodes | include/gpudirectfabric/enums.hpp:11-22 | The code of each memory domain. |
| Formats.ProvenanceCodes | include/gpudirectfabric/enums.hpp:30-44 | The code of each provenance. |
| Formats.SupportCodes | include/gpudirectfabric/enums.hpp:52 | The code of each kind of support. |
| Formats.StandingCodes | include/gpudirectfabric/enums.hpp:60-69 | The code of each registration state. |
| Formats.LifecycleCodes | include/gpudirectfabric/enums.hpp:77 | The code of each buffer lifecycle. |
| Formats.EligibilityCodes | include/gpudirectfabric/enums.hpp:85-102 | The code of each path eligibility. |
| Formats.PolicyCodes | include/gpudirectfabric/enums.hpp:110 | The code of each path policy. |
| Formats.ClassCodes | include/gpudirectfabric/enums.hpp:138 | The code of each endpoint class. |
| Formats.LocalityCodes | include/gpudirectfabric/enums.hpp:210 | The code of each locality. |
| Recovery.PlanTableReadsBack | src/persistence.cpp:536-579 | A plan table reads back as itself exactly when its copy counts lead the loop to the last row; otherwise the read fails or drops plans, and what is read is part of the table. |
| Recovery.RecoverOfPersist | src/persistence.cpp:112-580 | Within the limits, recovery of the persisted bytes yields exactly the durable part of the state if and only if the copy counts, in order of plan id, lead the decoder through the plan table. |
| Restart.RestartRestores | src/persistence.cpp:112-580 | In every state of every run within the limits, that is the case exactly with no plan, one direct plan, or two plans of which the older is staged. |
| RestartScenarios.StagedPlanIsLost | src/persistence.cpp:566-567 | A five-step run of a new coordinator that ends with one staged plan, well within every limit, in a state its file does not restore. |
| RestartScenarios.RestartRevives | src/persistence.cpp:346-349 | A lifetime of two runs in which an incarnation lives and dies before the restart and lives again after it. |
| Restart.SeenReturnsIffEpochKept | src/persistence.cpp:346-349 | Right after a restart an incarnation seen before can register again exactly if it is of the current epoch; once the epoch has advanced, it cannot. |
| Restart.OldEpochNeverLives | src/coordinator.cpp:59-65 | In a run no incarnation of an epoch that has passed is ever live again. |
| Lifetimes.RecoveredIsPowerless | src/persistence.cpp:346-349 | Whatever bytes recovery accepts, the result has no live worker, no REGISTERED registration, no authoritative plan and no transfer. |
| Restart.BegunPlanIsNew | src/coordinator_lifecycle.cpp:38-40 | In any run from any recovered state, every admitted begin uses a plan committed by an earlier step of that run. |
| Restart.DirectPathIsNew | src/path.cpp:293-296 | In any run from any recovered state, every direct decision rests on a registration recorded by an earlier step of that run. |

## Left out

- Sockets, threads, process spawning, file opening and atomic replacement: streams and files are byte sequences here.
- The mutex, and the unlocked read of the state while persisting: each critical section, and persistence, is atomic.
- Backends: replaced by arbitrary answers.
- What a failed recovery leaves in the object it was filling: recovery returns a state or an error.
- Detail, summary, description and message strings, and the names of enumerators: a plan's explanation is an argument,
  findings carry no detail, and error replies carry their code only.
- Sorted list accessors and lookups by id: easy members.
- Restarts from a state beyond the limits of the format: the code then truncates counts and widths silently, and what
  recovery makes of such a file is not described.
- The payload field helpers of messages (`pw_*`, `PayloadReader`): the same little-endian fields as the state file's,
  with no further law.
- The server's dispatch, the worker client, the command line, examples and benchmark.
- Wrap-around of 64-bit generations, epochs, ids and freshness.
- `max_buffers`: staging buffers bypass it, so no bound holds.
