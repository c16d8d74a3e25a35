# Fleet agent verification

A Dafny model of a GPU fleet agent and its coordinator, with proofs about it. Worker agents probe their
accelerators and publish observations over a framed binary protocol; a coordinator keeps the authoritative state of
nodes, workers and devices in a store that fences superseded authority, persists it, and recovers it.

Layout, bottom up:

- `Basics`, `Order`: results, machine integers, byte strings; keys in ascending order, as an ordered map is walked.
- `Crc`, `RegisterBits`, `Border`, `Codec`, `ByteStream`: the checksum and what it detects, across its border too;
  big-endian formats as pairs of functions, and the growable writer and cursor reader proved to follow them.
- `Identity`, `Device`, `Pipeline`: identities and their canonical keys, device records, health and eligibility, the
  application of one observation and the changes it reports.
- `Fleet`, `FleetStore`: the steps of the store as a state machine, and the store itself as a class updated in place;
  every method is proved to carry out its step. A call is a plan of atomic actions, so that a refused batch, which
  keeps what it accepted, is a plan like any other.
- `FleetRuns`, `FleetFencing`, `FleetReplay`, `FleetBatch`, `FleetAdmin`: what every run keeps. The state carries a
  history next to the fields of the store (all change records, all acceptances, all superseded incarnations), over which the
  whole-run results are stated.
- `Effects`, `Sweeping`, `Evidence`, `Reports`: what each call does to the fields of the store, in plain terms: statuses,
  worker records, swept devices, the evidence held, the records logged, the answers, the counters.
- `Heartbeats`, `Epochs`, `Liveness`: when a worker was last heard, how epochs and generations move, and a round of the
  liveness loop.
- `Framing`, `Message`, `Records`, `RegistrationCodec`, `ObservationCodec`, `StateCodec`, `SnapshotCodec`: the frame
  decoder and the encodings. A format is a function `Put...(value, rest)` and a function `Get...(bytes)`; the writing
  and reading methods are proved equal to them, and round trips are proved between them.
- `Sizes`, `Persistence`, `Recovery`, `Saving`: the length of a snapshot, the store image as a byte sequence, restore
  after load after save, and which stores can be saved and loaded.
- `Agent`, `Coordinator`: the publishing side, and a connection from bytes to calls on the store.
- `Dispatching`, `Probing`: what each kind of message makes of the store, by the bytes of its payload; and the way from
  what a backend found out about a device to the coordinator's verdict on it.
- `Division`, `Layout`, `Naming`: definitions from outside: the checksum as a remainder of polynomials; frames, messages
  and images byte by byte; keys taken apart at their bars.
- `Delivery`, `Channel`, `Conversation`: batches that are due, the two parties with frames in flight between them, and a
  whole conversation from enumerations through bytes to acceptances.
- `Lifetime`, `Chronicle`, `Forgotten`: a coordinator through messages, losses, saves and restarts, with its history of
  acceptances, and what a restart from an old state file forgets.

Text is bytes, doubles are kept as their 64 bits, enumerations are byte codes that decoders do not validate, and
generations and ids are 64-bit numbers that wrap where the program lets them wrap. Clocks, probe results and received
chunks are parameters.

What the code does not keep, although its names or comments suggest it, is stated as it is: a policy that requires
capabilities admits nothing (`Pipeline.RequiredCapabilityNeverAdmits`), a batch sent again takes its own devices down
(`FleetBatch.ResendExact`), a boot id that returns and a device with two reporters can be replayed
(`FleetReplay.ReturningBootReplays`, `FleetReplay.TwoReportersReplay`),
undraining forgets policy (`FleetAdmin.UndrainDropsPolicy`), reaching DRAINED is logged as a drain initiated and
undraining as a drain completed (`FleetAdmin.DrainRecordAgreement`), the counters fail their own validity test once
most workers are fenced (`FleetAdmin.AccountingValidity`), keys collide when text holds bars
(`Identity.BarCollides`), recovery loses devices with long keys from the keys their identities have, so that old
observations of them are accepted again (`Recovery.LongKeyBreaks`, `Recovery.LongKeyReplays`), a restart forgets losses
and acceptances that were not saved (`Lifetime.FencedAfterRestart`, `Forgotten.UnsavedIsAcceptedAgain`), a worker that
registers more than 2048 devices and reports them makes the state file unloadable, since they are listed twice
(`Saving.FirstBatchLoads`), an agent uses up generations for batches that are refused (`Channel.AcceptedExactly`), and the
comment at include/gpufleetagent/core/codec.hpp:75 says clamping is not acceptable where the writer clamps.

## Model

| member | source | states |
|---|---|---|
| `FleetStore.FleetStateStore.constructor` | include/gpufleetagent/fleet/fleet_state.hpp:93-95 | a new store is empty, at the given epoch, with fleet and node generations 1 |
| `FleetStore.FleetStateStore.RollEpoch` | include/gpufleetagent/fleet/fleet_state.hpp:107-118 | an epoch not above the current one is refused as stale and changes nothing; any other becomes the epoch and advances the fleet generation |
| `Effects.RollEffect` | include/gpufleetagent/fleet/fleet_state.hpp:107-118 | status and effect of an epoch roll on the fields: stale, or the new epoch and the fleet generation plus one, wrapping at 2^64; nothing else moves |
| `Epochs.GenerationsCount` | include/gpufleetagent/fleet/fleet_state.hpp:107-118 | over every run the epoch is the last one that was newer than all before it, and the fleet generation counts the epochs so taken; node generation and coordinator never change |
| `Epochs.FromTheStart` | include/gpufleetagent/fleet/fleet_state.hpp:93-95 | a new store is empty, with both generations one, and moves from there in every run as counted |
| `FleetStore.FleetStateStore.RegisterWorker` | include/gpufleetagent/fleet/fleet_state.hpp:120-178 | the status, the registration id and the whole new state of a registration: the two refusals, the reaffirmed incarnation, the refused duplicate, the first or superseding incarnation |
| `Effects.RegisterEffect` | include/gpufleetagent/fleet/fleet_state.hpp:120-178 | status and effect of every registration on the fields: unchanged when refused for its epoch, protocol, generation or an incarnation in place; a renewed incarnation gets generation, heartbeat and list; any other record is made field by field of the registration and the clock, and the node is created at generation 1 only when unknown |
| `Effects.NewlyAdmitted` | include/gpufleetagent/fleet/fleet_state.hpp:150-178 | the record of a first or superseding registration: its boot, generation, node, versions, platform, driver, lists and epoch, both times the clock, alive, neither fenced nor lost |
| `Effects.Reaffirmed` | include/gpufleetagent/fleet/fleet_state.hpp:133-147 | a renewed registration changes generation, heartbeat, list and the two flags, and nothing else |
| `Heartbeats.HeartbeatIsLast` | include/gpufleetagent/fleet/fleet_state.hpp:120-333 | over every run a worker is known exactly when it was from the start or has been heard, and its last heartbeat is the time of the last call in which it registered, reported or sent a heartbeat with success |
| `FleetStore.FleetStateStore.Restore` | include/gpufleetagent/fleet/fleet_state.hpp:185-208 | the whole state after a restore: every field of the snapshot, no acceptance counted, every device recovered |
| `FleetStore.FleetStateStore.RecoverDevices` | include/gpufleetagent/fleet/fleet_state.hpp:196-206 | the loop over the devices leaves each of them, and nothing else, as recovery makes it |
| `FleetStore.FleetStateStore.MarkWorkerLost` | include/gpufleetagent/fleet/fleet_state.hpp:210-232 | the worker is fenced, lost and not alive, and each listed device is silenced in list order; an unknown worker changes nothing |
| `Effects.LossEffect` | include/gpufleetagent/fleet/fleet_state.hpp:210-232 | a loss sets the three flags; a listed known device loses its freshness, and if it was present it becomes absent, LOST and INELIGIBLE for WORKER_RESTART; nothing else changes |
| `Liveness.ExpireWorkers` | src/coordinator/coordinator.cpp:132-145 | a round of the liveness loop, over a copy of the workers in the order of their ids, issues exactly the losses that are due |
| `Liveness.RoundExact` | src/coordinator/coordinator.cpp:132-145 | a round fences exactly the workers in authority whose last heartbeat is set and older than the timeout, and takes down exactly the devices that one of them lists |
| `Liveness.InAuthorityWasHeard` | src/coordinator/coordinator.cpp:132-145 | after any run and a round, a worker that joined in the run and is still in authority was last heard within the timeout, unless the time noted then was none |
| `FleetStore.FleetStateStore.TakeIn` | include/gpufleetagent/fleet/fleet_state.hpp:248-294 | the observation loop carries out exactly the actions of the batch up to its end or first refusal, and collects exactly the keys accepted |
| `FleetStore.FleetStateStore.AcceptOne` | include/gpufleetagent/fleet/fleet_state.hpp:278-293 | one accepted observation: the device, the bounded log, the worker list and the count all become what the specification says |
| `FleetStore.FleetStateStore.Sweep` | include/gpufleetagent/fleet/fleet_state.hpp:296-315 | the sweep loop marks exactly the listed unseen known devices as lost, with one record each, and touches no worker |
| `Sweeping.SweptEffect` | include/gpufleetagent/fleet/fleet_state.hpp:296-315 | after a successful batch a known device with no acceptance in it is, when listed, absent, not fresh, LOST and INELIGIBLE for DEVICE_DISAPPEARANCE, every other field as before; when not listed, unchanged |
| `Sweeping.BatchRecords` | include/gpufleetagent/fleet/fleet_state.hpp:278-315 | a successful batch logs changes of observations it accepted, at their times and generations, and then one DEVICE_DISAPPEARED record, with all its fields, for each occurrence in the list of a known device it did not renew |
| `FleetStore.FleetStateStore.IngestSnapshot` | include/gpufleetagent/fleet/fleet_state.hpp:235-319 | result and whole new state of a batch: guards, acceptances in order, then either the refusal or the sweep and the renewed heartbeat |
| `Sweeping.OneObservation` | include/gpufleetagent/fleet/fleet_state.hpp:235-276 | status of a batch of one, and exactly when its observation is accepted: the recorded boot of an unfenced worker, the current epoch, the own name, and for a device known from that boot a new observation generation with no other generation falling |
| `Sweeping.IngestWorkers` | include/gpufleetagent/fleet/fleet_state.hpp:235-318 | a batch changes only the record of its own worker: the list grows, and heartbeat and liveness are renewed exactly when it succeeds; in the name of an unknown, lost or fenced worker nothing changes |
| `Reports.AcceptReports` | include/gpufleetagent/fleet/fleet_state.hpp:278-286 | an accepted observation logs exactly the changes between its device before and after, at the time, generation and epoch it was taken under |
| `Reports.BatchAnswers` | include/gpufleetagent/fleet/fleet_state.hpp:236-319 | a successful batch is answered with what the store holds of the device accepted last, or with an answer that says nothing was accepted |
| `FleetStore.FleetStateStore.Heartbeat` | include/gpufleetagent/fleet/fleet_state.hpp:321-333 | the three refusals, or the worker alive and not lost with its fence untouched |
| `Effects.HeartbeatEffect` | include/gpufleetagent/fleet/fleet_state.hpp:321-333 | status and effect of a heartbeat: another epoch, an unknown worker and another boot change nothing; otherwise last heartbeat, alive and lost, and nothing else |
| `FleetStore.FleetStateStore.SetDrain` | include/gpufleetagent/fleet/fleet_state.hpp:335-352 | not found, no change, or the drain state set, eligibility recomputed and one record logged |
| `Effects.DrainEffect` | include/gpufleetagent/fleet/fleet_state.hpp:335-352 | status and effect of a drain: the axis, eligibility and reasons by a table of the record, and one record with all its fields; nothing for an unknown device or the state it is in |
| `FleetStore.FleetStateStore.SetQuarantine` | include/gpufleetagent/fleet/fleet_state.hpp:354-371 | not found, stale generation, or the quarantine set, eligibility recomputed and a record logged only when it is new |
| `Effects.QuarantineEffect` | include/gpufleetagent/fleet/fleet_state.hpp:354-371 | status and effect of a quarantine, by the same table, with one record exactly when the device was not quarantined |
| `FleetStore.FleetStateStore.ClearQuarantine` | include/gpufleetagent/fleet/fleet_state.hpp:373-388 | stale epoch, not found, or the quarantine cleared, eligibility recomputed and one record logged |
| `Effects.ClearEffect` | include/gpufleetagent/fleet/fleet_state.hpp:373-388 | status and effect of a clearance, by the same table: the quarantine record emptied and one record logged |
| `FleetStore.FleetStateStore.TakeSnapshot` | include/gpufleetagent/fleet/fleet_state.hpp:390-403 | the snapshot holds every field of the store and the exact counters |
| `FleetStore.FleetStateStore.CountWorkers` | include/gpufleetagent/fleet/fleet_state.hpp:452-457 | the three worker counters are the sizes of the sets of registered, live and stale workers |
| `FleetStore.FleetStateStore.CountDevices` | include/gpufleetagent/fleet/fleet_state.hpp:458-467 | the four device counters are the sizes of the sets of devices in the four states |
| `Reports.AccountingMeans` | include/gpufleetagent/fleet/fleet_state.hpp:450-470 | each counter by name is the number of workers or devices with the property it is named for |
| `Fleet.PlanEnabled` | include/gpufleetagent/fleet/fleet_state.hpp:107-388 | every call, whatever its arguments, carries out only actions whose guards hold at the moment they are carried out |
| `Fleet.PlanFrom` | include/gpufleetagent/fleet/fleet_state.hpp:107-388 | which call each kind of action can come from, with whose arguments |
| `FleetRuns.RunInvariant` | include/gpufleetagent/fleet/fleet_state.hpp:107-388 | over every run of calls: the consistency of `FleetRuns.RunConsistent`, and every device under the canonical key of its identity |
| `FleetRuns.RunConsistent` | include/gpufleetagent/fleet/fleet_state.hpp:107-388 | over every run, whatever keys devices are under: lost or not alive implies fenced; workers under their own ids, on known nodes, registered at no later epoch; an ELIGIBLE device is present, fresh, HEALTHY, undrained and unquarantined; at most one reason, and none exactly when ELIGIBLE; DEGRADED_ELIGIBLE never; the log is the last 10000 records ever emitted, with non-decreasing epochs; the count equals the acceptances |
| `FleetRuns.InitialInvariant` | include/gpufleetagent/fleet/fleet_state.hpp:93-95 | a new store satisfies all of it |
| `FleetRuns.PushAllKeepsLast` | include/gpufleetagent/fleet/fleet_state.hpp:283-286 | pushing records one by one and dropping the oldest beyond 10000 keeps exactly the last 10000 of the whole history |
| `Reports.LogIsLast` | include/gpufleetagent/fleet/fleet_state.hpp:283-286 | over every run from a new store the log is what was recorded last, at most 10000 records, and the count is the number of acceptances |
| `FleetRuns.RecomputeEligible` | include/gpufleetagent/fleet/fleet_state.hpp:428-443 | exactly when recomputed eligibility is ELIGIBLE, for every device record |
| `FleetRuns.RecomputeSound` | include/gpufleetagent/fleet/fleet_state.hpp:428-443 | recomputation stores a sound device |
| `FleetFencing.StepSucceeds` | include/gpufleetagent/fleet/fleet_state.hpp:133-177 | in every call a fence stays up within an incarnation, a boot changes only when the record was fenced, registration generations never fall, the epoch never falls |
| `FleetFencing.StepAuthority` | include/gpufleetagent/fleet/fleet_state.hpp:240-293 | every observation a call accepts comes from its own batch, from the recorded boot of the calling, registered, unfenced, not lost worker, at the current epoch |
| `FleetFencing.IngestKeepsAdministration` | include/gpufleetagent/fleet/fleet_state.hpp:235-319 | ingest and loss emit no drain or quarantine record and change neither administrative axis of any device, new devices included |
| `FleetFencing.OnlyAcceptanceRevives` | include/gpufleetagent/fleet/fleet_state.hpp:210-232 | over every run, a device that is neither fresh nor ELIGIBLE stays so unless an observation of it is accepted |
| `FleetFencing.LossBringsDown` | include/gpufleetagent/fleet/fleet_state.hpp:210-232 | marking a worker lost fences its incarnation; a device is neither fresh nor ELIGIBLE afterwards exactly when it was so before, or the worker lists it and it was not called ELIGIBLE while absent |
| `FleetFencing.NoResurrection` | include/gpufleetagent/fleet/fleet_state.hpp:210-243 | after a loss, a listed device that only that worker reports stays neither fresh nor ELIGIBLE, and the incarnation fenced, through every run without a registration under another boot |
| `FleetReplay.ReplaySafety` | include/gpufleetagent/fleet/fleet_state.hpp:248-294 | over every run in which superseded incarnations do not return and each key has one reporter: per key and boot, accepted observation generations strictly increase, device and health generations never fall, so nothing is accepted twice |
| `FleetReplay.ReachedSafe` | include/gpufleetagent/fleet/fleet_state.hpp:93-294 | every run from a new store under the same two conditions ends in a state that satisfies what the theorems about recovery ask for |
| `FleetReplay.FencedNeverPublishes` | include/gpufleetagent/fleet/fleet_state.hpp:240-251 | once fenced, an incarnation has nothing accepted in any run in which superseded incarnations do not return |
| `FleetReplay.RunBacked` | include/gpufleetagent/fleet/fleet_state.hpp:278-293 | over every run, each device is at the boot and observation generation of an acceptance of it |
| `FleetReplay.ReturningBootReplays` | include/gpufleetagent/fleet/fleet_state.hpp:133-177 | why superseded incarnations must not return: whenever a worker alternates between two boots, its old observation is accepted twice |
| `FleetReplay.TwoReportersReplay` | include/gpufleetagent/fleet/fleet_state.hpp:263-276 | why a key must have one reporter: whenever two workers with different boots report it by turns, an observation sent again is accepted again |
| `FleetBatch.BatchAccepted` | include/gpufleetagent/fleet/fleet_state.hpp:235-319 | a successful batch, for every key: the in-order fold of its own unrepeated observations if any was accepted, else LOST if the worker lists it, else unchanged |
| `FleetBatch.BatchRefused` | include/gpufleetagent/fleet/fleet_state.hpp:248-276 | a refused batch, for every key: exactly the fold over the observations before the refused one, whose own verdict is the status; nothing is swept |
| `FleetBatch.RefusedWorkers` | include/gpufleetagent/fleet/fleet_state.hpp:287-291 | all that a refused batch does to the workers is to list, each once, exactly the devices it made known before the refusal |
| `FleetBatch.BatchWorkers` | include/gpufleetagent/fleet/fleet_state.hpp:287-318 | a successful batch changes no worker but its own, whose list grows by the accepted unknown keys, each once, and which has just been heard from |
| `FleetBatch.SweepEffect` | include/gpufleetagent/fleet/fleet_state.hpp:296-315 | the sweep changes exactly the listed, unseen, known devices, however often a key is listed |
| `FleetBatch.RepeatedBatchSweeps` | include/gpufleetagent/fleet/fleet_state.hpp:265-315 | a batch of repetitions succeeds, accepts nothing, marks exactly the listed known devices as lost and changes no other |
| `FleetBatch.IngestedIsSkipped` | include/gpufleetagent/fleet/fleet_state.hpp:263-269 | after a successful batch, each of its observations is such a repetition |
| `FleetBatch.ResendExact` | include/gpufleetagent/fleet/fleet_state.hpp:235-319 | sending a batch again straight after it succeeded leaves a device as it was exactly when the first send accepted no observation of it, or it was known but not listed; otherwise it is marked lost |
| `FleetAdmin.AxesIndependent` | include/gpufleetagent/fleet/fleet_state.hpp:335-388 | from an ELIGIBLE, validated device, over every run without ingest or loss: QUARANTINED if quarantined, else DRAINING if drained, else ELIGIBLE |
| `FleetAdmin.UndrainExact` | include/gpufleetagent/fleet/fleet_state.hpp:428-443 | draining and undraining leaves any device eligible exactly when it is not quarantined and its record alone recommends it, whatever it was before |
| `FleetAdmin.UndrainDropsPolicy` | include/gpufleetagent/fleet/fleet_state.hpp:428-443 | for a device just observed: draining and undraining changes whether it is eligible exactly when evidence is fresh and complete but policy and core validation disagree |
| `FleetAdmin.DrainRecordAgreement` | include/gpufleetagent/fleet/fleet_state.hpp:341-349 | the logged kind of a drain change is the one the two states show exactly when the device was ACTIVE |
| `FleetAdmin.AccountingExact` | include/gpufleetagent/fleet/fleet_state.hpp:450-470 | live plus stale is registered, live is the number of unfenced workers, the four device counters sum to at most the devices, acceptances counted exactly |
| `FleetAdmin.AccountingValidity` | include/gpufleetagent/fleet/fleet_state.hpp:72-74 | the validity test of the counters holds exactly while fenced workers are at most half |
| `FleetAdmin.OneLostWorkerIsInvalid` | include/gpufleetagent/fleet/fleet_state.hpp:72-74 | that test fails after one worker registers and is lost |
| `Pipeline.ComputeObservation` | include/gpufleetagent/observation/pipeline.hpp:147-241 | the step-by-step application of an observation yields the specified state, changes, eligibility and freshness |
| `Evidence.AcceptEffect` | include/gpufleetagent/observation/pipeline.hpp:147-241 | an accepted observation, on a known or unknown device: every evidence field is stored as observed; freshness, health with its wording, eligibility with its reason by tables of the evidence; the three times; drain and quarantine kept; no other device touched |
| `Evidence.EvidenceHeld` | include/gpufleetagent/fleet/fleet_state.hpp:278-293 | over every run a device is known exactly when an observation of it was accepted, holds what the last one said, was last validated at the time of the last accepted one that passed core validation, and is present only if the last one said so |
| `Evidence.InitialHoldsLast` | include/gpufleetagent/fleet/fleet_state.hpp:93-95 | this holds of a new store |
| `Evidence.CallRenews` | include/gpufleetagent/observation/pipeline.hpp:147-241 | in every call of every run, refused or not, a device with an acceptance in it is as the last of them calls for; it is fresh exactly when that was observed at a set time, within the threshold, and not before the previous accepted observation of the device with a time set |
| `Pipeline.ComputeCapabilityMatch` | include/gpufleetagent/observation/pipeline.hpp:210-215 | the capability loop yields true exactly when nothing is required |
| `Pipeline.ComputeArchitectureMatch` | include/gpufleetagent/observation/pipeline.hpp:200-206 | the architecture and compute capability requirement |
| `Pipeline.ExactEligibility` | include/gpufleetagent/observation/pipeline.hpp:147-225 | exactly which observations make a device ELIGIBLE: fresh, present, all operations proven, policy met, prior undrained and unquarantined, no capability required |
| `Pipeline.RequiredCapabilityNeverAdmits` | include/gpufleetagent/observation/pipeline.hpp:210-215 | a policy that requires any capability admits no device |
| `Pipeline.ApplySound` | include/gpufleetagent/observation/pipeline.hpp:147-241 | applying an observation yields a sound device, keeps drain and quarantine, and reports only non-administrative changes at the given epoch |
| `Pipeline.HealthClassified` | include/gpufleetagent/health/health_evaluator.hpp:55-124 | exactly which signals lead to each health state, independently of the order of the tests |
| `Pipeline.HealthExact` | include/gpufleetagent/health/health_evaluator.hpp:55-124 | exactly which signals are HEALTHY; without a limit violation never DEGRADED |
| `Pipeline.EligibilityClassified` | include/gpufleetagent/eligibility/eligibility_evaluator.hpp:55-148 | exactly which inputs lead to each eligibility, at most one reason, and which reason dominates |
| `Pipeline.EligibilityExact` | include/gpufleetagent/eligibility/eligibility_evaluator.hpp:55-148 | exactly which inputs are ELIGIBLE; reasons empty exactly then; DEGRADED_ELIGIBLE only from DEGRADED |
| `Pipeline.ComputeDiff` | include/gpufleetagent/observation/change.hpp:71-147 | pushing one axis after another yields the specified list of changes |
| `Pipeline.ComputeCapabilitiesKey` | include/gpufleetagent/observation/change.hpp:106-110 | the printed capability list, built in a loop |
| `Pipeline.DiffExact` | include/gpufleetagent/observation/change.hpp:71-147 | the changes reported are exactly the changed axes, each once, in order of kind; none between equal states |
| `Reports.DiffListed` | include/gpufleetagent/observation/change.hpp:71-147 | the changes between two states, spelled out: for each of the fourteen kinds its condition, wording and the two values shown, in order |
| `Reports.Printed` | include/gpufleetagent/observation/change.hpp:106-110 | capabilities print one after another as name, equals sign, value and semicolon |
| `Reports.HealthNames` | include/gpufleetagent/health/health_state.hpp:28-43 | the names of the health states, UNKNOWN for any other code |
| `Reports.EligibilityNames` | include/gpufleetagent/eligibility/eligibility.hpp:29-40 | the names of the eligibilities, UNKNOWN for any other code |
| `Identity.KeyInjective` | include/gpufleetagent/identity/device_identity.hpp:151-169 | for identities without a bar in name, UUID and architecture: equal keys exactly when all eight key fields are equal |
| `Identity.PciTextInjective` | include/gpufleetagent/identity/device_identity.hpp:34-38 | printed PCI addresses are equal only for equal addresses |
| `Identity.ReadingDigits` | include/gpufleetagent/identity/device_identity.hpp:151-169 | decimal and hexadecimal digits read back to the number printed |
| `Naming.KeyParts` | include/gpufleetagent/identity/device_identity.hpp:151-169 | a key without bars in its texts comes apart into eight parts, in order: vendor word, name, UUID, address, architecture, version, memory, driver |
| `Naming.PciParts` | include/gpufleetagent/identity/device_identity.hpp:34-38 | an address prints in twelve characters, its four numbers in hexadecimal at fixed places between two colons and a dot |
| `Naming.DigitsSpelled` | include/gpufleetagent/identity/device_identity.hpp:34-38 | digits are the ASCII digits and small letters |
| `Identity.VendorTextInjective` | include/gpufleetagent/identity/device_identity.hpp:81-89 | named vendors print differently |
| `Identity.KeyInjectiveByDriver` | include/gpufleetagent/identity/device_identity.hpp:151-169 | the same with bars allowed in the architecture instead of the driver text |
| `Identity.BarCollides` | include/gpufleetagent/identity/device_identity.hpp:151-169 | every identity with a bar in its name or UUID shares its key with one of another name and UUID |
| `Identity.ArchitectureBarCollides` | include/gpufleetagent/identity/device_identity.hpp:151-169 | with bars in both architecture and driver text, every identity has partners that share a key |
| `Crc.ComputeCrc32` | include/gpufleetagent/core/codec.hpp:28-37 | the nested loop computes the register run, byte by byte and bit by bit |
| `Division.CrcIsChecksum` | include/gpufleetagent/core/codec.hpp:28-37 | for data of any length the checksum is the complement of the remainder, by long division of polynomials over bits, of the data with its first 32 bits complemented and 32 zeros appended |
| `Division.ComplementedFront` | include/gpufleetagent/core/codec.hpp:28-37 | for data of four bytes and more the complement falls within the data, and the 32 zeros follow unchanged |
| `Division.LeadingZeroSeen` | include/gpufleetagent/core/codec.hpp:28-37 | a leading zero byte always changes the checksum |
| `Division.CheckValue` | include/gpufleetagent/core/codec.hpp:28-37 | the checksum of one zero byte is D202EF8D |
| `Crc.ShiftBackWord` | include/gpufleetagent/core/codec.hpp:32-34 | a shift step can be undone: how two words differed before it follows from how they differ after |
| `Crc.RunInjective` | include/gpufleetagent/core/codec.hpp:28-37 | different registers stay different through any data |
| `Crc.WindowInjective` | include/gpufleetagent/core/codec.hpp:28-37 | from one register, different windows of four bytes lead to different registers |
| `Crc.BurstDetected` | include/gpufleetagent/core/codec.hpp:28-37 | every change confined to four consecutive bytes of the data changes the checksum |
| `RegisterBits.ShiftByLinear` | include/gpufleetagent/core/codec.hpp:32-34 | shifting is linear: how registers differ depends only on how they differed |
| `RegisterBits.TwoBytes` | include/gpufleetagent/core/codec.hpp:32-34 | of all pairs of bytes, only none and 61 D8 lead through two rounds of shifts to a register whose low two bytes are zero |
| `Border.BurstExact` | include/gpufleetagent/core/codec.hpp:28-37 | data followed by its checksum and changed within any four consecutive bytes, across the border too, still carries its checksum exactly when the two bytes on either side of the border changed by 61 D8 and F4 EE |
| `ByteStream.ByteWriter.U64` | include/gpufleetagent/core/codec.hpp:56-60 | the shift loop appends the eight big-endian bytes |
| `ByteStream.ByteWriter.U32` | include/gpufleetagent/core/codec.hpp:50-55 | appends the four big-endian bytes |
| `ByteStream.ByteWriter.Text` | include/gpufleetagent/core/codec.hpp:73-81 | appends the length and the bytes, cut to the maximum |
| `ByteStream.ByteWriter.Blob` | include/gpufleetagent/core/codec.hpp:69-72 | appends the low 32 bits of the length and all bytes |
| `ByteStream.ByteReader.U64` | include/gpufleetagent/core/codec.hpp:119-125 | takes eight bytes and their value off the front, or fails and stays |
| `ByteStream.ByteReader.Bytes` | include/gpufleetagent/core/codec.hpp:142-150 | takes a bounded length-prefixed span; an excessive length and a missing byte are told apart |
| `ByteStream.ByteReader.Text` | include/gpufleetagent/core/codec.hpp:160-164 | takes a string; every failure is a truncation |
| `ByteStream.ByteReader.Raw` | include/gpufleetagent/core/codec.hpp:153-158 | takes exactly the bytes asked for |
| `Codec.ValBig` | include/gpufleetagent/core/codec.hpp:50-60 | big-endian bytes spell the number written |
| `Codec.GetPutCountedExact` | include/gpufleetagent/observation/observation_codec.hpp:109-139 | a counted list comes back, each element clipped, exactly when it and its elements are in bounds |
| `Codec.NeitherShorterNorLonger` | include/gpufleetagent/protocol/codec.hpp:91 | an input read to its end is refused with anything cut off or added |
| `Framing.EncodeFrame` | include/gpufleetagent/protocol/framing.hpp:39-54 | the frame bytes: header, payload, checksum |
| `Framing.FrameDecoder.Feed` | include/gpufleetagent/protocol/framing.hpp:63-106 | buffer and answer after each chunk, in terms of what the buffered bytes parse to |
| `Framing.ParseFrame` | include/gpufleetagent/protocol/framing.hpp:66-105 | a ready frame consumes at least 15 bytes, and no more than there are |
| `Layout.FrameWritten` | include/gpufleetagent/protocol/framing.hpp:39-54 | a frame is 47 46 4C 41, 00 01, the kind, four bytes of length, the payload and four bytes of checksum |
| `Layout.FrameTaken` | include/gpufleetagent/protocol/framing.hpp:63-106 | a frame is taken off a buffer exactly when these bytes stand in front of it, whole, with a payload of at most 16 MiB |
| `Layout.FrameFaults` | include/gpufleetagent/protocol/framing.hpp:63-106 | what the decoder says of any buffer, by its bytes: more needed, the first of five faults in order, or the frame |
| `Framing.ChunkingInvariant` | include/gpufleetagent/protocol/framing.hpp:63-106 | however a stream is cut into chunks, feeding and draining yields the frames and first error of one parse of the whole |
| `Framing.ParseStreamExtend` | include/gpufleetagent/protocol/framing.hpp:63-106 | more bytes never change what was parsed before |
| `Framing.EncodedFrameParses` | include/gpufleetagent/protocol/framing.hpp:39-105 | an encoded frame is read back, whatever follows, exactly when its payload is within 16 MiB |
| `Framing.FramesReceived` | include/gpufleetagent/protocol/framing.hpp:39-106 | of encoded frames in any chunks exactly those before the first over 16 MiB are received; that one fails the stream, and without one nothing is left over |
| `Framing.LeavesPartialFrame` | include/gpufleetagent/protocol/framing.hpp:84-90 | unless the stream failed, fewer than 16 MiB + 15 bytes stay buffered |
| `Framing.DamagedFrameRejected` | include/gpufleetagent/protocol/framing.hpp:66-105 | a frame damaged within any four consecutive bytes, its length field apart, is accepted when the damage is that one pattern across payload and checksum, and refused otherwise |
| `Message.EncodeMessage` | include/gpufleetagent/protocol/codec.hpp:22-41 | the bytes written, field by field |
| `Message.DecodeMessage` | include/gpufleetagent/protocol/codec.hpp:43-93 | the message or the status, for every input |
| `Layout.MessageTaken` | include/gpufleetagent/protocol/codec.hpp:43-93 | data is taken for a message exactly when it is the kind, the twelve numbers in order, a flag byte that is not zero exactly when set, a reason of at most 4096 bytes and a payload, each behind its length, and nothing more |
| `Layout.MessageWritten` | include/gpufleetagent/protocol/codec.hpp:22-41 | a message is written so, with a flag of 0 or 1 and its reason cut to 65535 bytes |
| `Message.MessageRoundTrip` | include/gpufleetagent/protocol/codec.hpp:22-93 | a message decodes to itself exactly when its reason is at most 4096 bytes and its payload at most 2^31 - 1 |
| `Message.MessagePrefixFree` | include/gpufleetagent/protocol/codec.hpp:43-93 | no encoded message is accepted cut short or extended |
| `RegistrationCodec.EncodeRegistration` | include/gpufleetagent/fleet/registration.hpp:39-59 | the bytes written, with both list loops |
| `RegistrationCodec.DecodeRegistration` | include/gpufleetagent/fleet/registration.hpp:61-106 | the registration or the status, for every input |
| `RegistrationCodec.RegistrationRoundTrip` | include/gpufleetagent/fleet/registration.hpp:39-106 | a registration comes back clipped exactly when both lists hold at most 4096 entries |
| `RegistrationCodec.RegistrationPrefixFree` | include/gpufleetagent/fleet/registration.hpp:61-106 | no encoded registration is accepted cut short or extended |
| `ObservationCodec.EncodeObservation` | include/gpufleetagent/observation/observation_codec.hpp:44-105 | the bytes of one observation |
| `ObservationCodec.DecodeObservation` | include/gpufleetagent/observation/observation_codec.hpp:141-257 | the observation or the status, for every input |
| `ObservationCodec.ObservationRoundTrip` | include/gpufleetagent/observation/observation_codec.hpp:44-257 | an observation comes back clipped exactly when it has at most 4096 capabilities |
| `ObservationCodec.ObservationFits` | include/gpufleetagent/observation/observation_codec.hpp:130 | any observation with at most 4096 capabilities encodes in less than 16 MiB |
| `ObservationCodec.EncodeBatch` | include/gpufleetagent/observation/observation_codec.hpp:109-118 | the bytes of a batch of nested blobs |
| `ObservationCodec.DecodeBatch` | include/gpufleetagent/observation/observation_codec.hpp:120-139 | the batch or the status, for every input |
| `ObservationCodec.BatchRoundTrip` | include/gpufleetagent/observation/observation_codec.hpp:109-139 | a batch comes back clipped exactly when it and every capability list are in bounds |
| `ObservationCodec.BatchPrefixFree` | include/gpufleetagent/observation/observation_codec.hpp:120-139 | no encoded batch is accepted cut short or extended |
| `ObservationCodec.BatchStorable` | include/gpufleetagent/observation/observation_codec.hpp:120-139 | whatever bytes a batch is decoded from, the identities in it are within the text limits and the capability lists within 4096 |
| `Records.WriteIdentity` | include/gpufleetagent/fleet/snapshot_codec.hpp:17-31 | the bytes of an identity |
| `Records.ReadIdentity` | include/gpufleetagent/fleet/snapshot_codec.hpp:33-59 | the identity or the failure, for every input |
| `Records.IdentityBack` | include/gpufleetagent/fleet/snapshot_codec.hpp:17-59 | an identity comes back with its texts clipped |
| `StateCodec.WriteDevice` | include/gpufleetagent/fleet/snapshot_codec.hpp:61-94 | the bytes of a device state |
| `StateCodec.ReadDevice` | include/gpufleetagent/fleet/snapshot_codec.hpp:96-145 | the device state or the failure, for every input |
| `StateCodec.DeviceBack` | include/gpufleetagent/fleet/snapshot_codec.hpp:61-145 | a device comes back clipped exactly when it has at most 32 reasons and 4096 capabilities |
| `StateCodec.WorkerBack` | include/gpufleetagent/fleet/snapshot_codec.hpp:155-264 | a worker entry comes back clipped, under its key, exactly when its lists are in bounds |
| `SnapshotCodec.EncodeSnapshot` | include/gpufleetagent/fleet/snapshot_codec.hpp:147-190 | the bytes of a snapshot, maps in key order |
| `SnapshotCodec.DecodeSnapshot` | include/gpufleetagent/fleet/snapshot_codec.hpp:192-299 | the snapshot or the status, for every input |
| `SnapshotCodec.ReadNodes` | include/gpufleetagent/fleet/snapshot_codec.hpp:204-215 | the node loop keeps the first of duplicate ids |
| `SnapshotCodec.ReadWorkers` | include/gpufleetagent/fleet/snapshot_codec.hpp:216-264 | the worker loop refuses a duplicate id |
| `SnapshotCodec.ReadDevices` | include/gpufleetagent/fleet/snapshot_codec.hpp:265-273 | the device loop refuses a duplicate key and reports any device failure as a truncation |
| `SnapshotCodec.SnapshotRoundTrip` | include/gpufleetagent/fleet/snapshot_codec.hpp:147-299 | a snapshot comes back clipped exactly when it is within the count bounds and its clipped device keys are distinct |
| `SnapshotCodec.LetteredClipped` | include/gpufleetagent/fleet/snapshot_codec.hpp:176-177 | clipping keeps key order: a clipped map is walked in the order of the map it came from |
| `Order.ClipKeepsOrder` | include/gpufleetagent/core/codec.hpp:73-81 | clipped keys are in the same lexicographic order, or have become equal |
| `SnapshotCodec.ReencodesTheSame` | include/gpufleetagent/fleet/snapshot_codec.hpp:147-190 | what was read back encodes to the same bytes |
| `SnapshotCodec.SnapshotPrefixFree` | include/gpufleetagent/fleet/snapshot_codec.hpp:192-299 | no encoded snapshot is accepted cut short or extended |
| `Sizes.DeviceLength` | include/gpufleetagent/fleet/snapshot_codec.hpp:61-94 | the exact length of an encoded device |
| `Sizes.HoldingBackGrows` | include/gpufleetagent/fleet/snapshot_codec.hpp:147-190 | holding every device back makes a snapshot longer by exactly one byte for each eligible device |
| `Persistence.SaveImage` | include/gpufleetagent/persistence/store.hpp:39-51 | the image bytes: header, payload, checksum |
| `Persistence.LoadImage` | include/gpufleetagent/persistence/store.hpp:90-118 | the snapshot or the status, for every sequence of bytes |
| `Layout.ImageWritten` | include/gpufleetagent/persistence/store.hpp:39-51 | an image is 47 46 4C 45, 00 00 00 01, eight bytes of length, the payload and four bytes of checksum |
| `Layout.ImageFaults` | include/gpufleetagent/persistence/store.hpp:90-118 | what the loader says of any image before decoding it, by its bytes: the first of six faults in order, or the payload |
| `Persistence.SnapshotDigest` | include/gpufleetagent/persistence/store.hpp:33-36 | the digest is the checksum of the encoded snapshot |
| `Persistence.LoadSave` | include/gpufleetagent/persistence/store.hpp:39-119 | a saved snapshot loads back clipped exactly when it is in bounds and its payload at most 2^31 bytes |
| `Persistence.DigestStable` | include/gpufleetagent/persistence/store.hpp:33-36 | loading does not change the digest |
| `Persistence.DamageRejected` | include/gpufleetagent/persistence/store.hpp:90-118 | an accepted image changed within any four consecutive bytes is rejected before it is decoded, exactly unless the change is the one pattern across payload and checksum |
| `Persistence.SingleByteRejected` | include/gpufleetagent/persistence/store.hpp:93-118 | an accepted image with any single byte changed is rejected |
| `Persistence.CutOrExtendedRejected` | include/gpufleetagent/persistence/store.hpp:105-107 | an accepted image cut short or extended is rejected as truncated |
| `Recovery.RecoverSaved` | src/coordinator/coordinator.cpp:40-49 | load after save of a snapshot in bounds, then restore, succeeds with the recovered state |
| `Recovery.RecoverySafe` | include/gpufleetagent/fleet/fleet_state.hpp:185-208 | recovery leaves no device fresh or ELIGIBLE, with the eligibility its axes call for, and keeps every other field of every device and worker, the nodes and the change log, strings up to clipping; the count of acceptances starts over |
| `Recovery.RecoveredConsistent` | include/gpufleetagent/fleet/fleet_state.hpp:185-208 | recovery keeps the store consistent, whatever keys devices are under |
| `Recovery.RecoveredInvariant` | include/gpufleetagent/fleet/fleet_state.hpp:185-208 | with identities within the text limits, recovery re-establishes the whole invariant exactly when no device key is longer than 256 bytes |
| `Recovery.RunWithinLimits` | include/gpufleetagent/fleet/fleet_state.hpp:235-319 | over every run whose observations come from a decoder, identities stay within the text limits |
| `Recovery.LongKeyBreaks` | include/gpufleetagent/core/codec.hpp:73-81 | every first report of a device with an identity within the limits and a key over 256 bytes leads to a store whose recovery breaks the invariant |
| `Recovery.LongKeys` | include/gpufleetagent/identity/device_identity.hpp:151-169 | a name and a UUID of 128 bytes each make such a key, within the limits |
| `Recovery.RecoveredStaysDown` | include/gpufleetagent/fleet/fleet_state.hpp:185-208 | after recovery of any store that can be saved, no device becomes fresh or ELIGIBLE in any run until an observation of it is accepted |
| `Recovery.ReplaySafetyAcrossRecovery` | include/gpufleetagent/fleet/fleet_state.hpp:185-294 | replay safety holds across save, load and restore, unless the key of a device is cut while its reporting incarnation is current and unfenced |
| `Recovery.ReplayAcrossRecoveryExact` | include/gpufleetagent/fleet/fleet_state.hpp:185-294 | nothing is accepted twice over all disciplined runs after a recovery exactly when there is no such device |
| `Recovery.LongKeyReplays` | include/gpufleetagent/fleet/fleet_state.hpp:263-276 | why: an observation no newer than what its long-keyed device was at is skipped before the recovery and accepted again after it |
| `Recovery.RecoverTwice` | src/coordinator/coordinator.cpp:40-55 | a second save, load and restore succeeds exactly when the image, longer by one byte for each device that was eligible, is within the loader's bound, and then changes nothing |
| `Recovery.DigestAfterRecovery` | include/gpufleetagent/persistence/store.hpp:33-36 | within that bound, the second image loads, and what it holds and what is restored from it have the digest of the state recovered first |
| `Saving.SavableExact` | include/gpufleetagent/fleet/snapshot_codec.hpp:192-299 | a store reached through decoders can be saved and loaded exactly when it has at most 100000 nodes, workers and devices, no worker lists over 4096 devices, device keys differ in their first 256 bytes, and the encoding is at most 2^31 bytes |
| `Saving.LoadsExactly` | src/coordinator/coordinator.cpp:40-49 | the image of such a store is loaded exactly then |
| `Saving.FirstBatchLoads` | include/gpufleetagent/fleet/fleet_state.hpp:287-291 | after a first registration and batch the image is loaded exactly when keys registered and devices reported are at most 4096 together, even when they are the same ones, the keys differ in their first 256 bytes, and the file is not too long |
| `Saving.TwinKeys` | include/gpufleetagent/identity/device_identity.hpp:151-169 | devices that share vendor, a name and a UUID of 128 bytes each have keys with the same first 256 bytes |
| `Agent.WorkerAgent.BeginRegistration` | src/agent/agent.cpp:122-151 | the agent keeps the epoch it was told and sends a registration with it |
| `Agent.WorkerAgent.EndRegistration` | src/agent/agent.cpp:153-158 | only an acknowledged registration uses up its generation |
| `Agent.WorkerAgent.PublishSnapshot` | src/agent/agent.cpp:199-234 | what is sent and how the counters advance; nothing for an empty batch |
| `Agent.WorkerAgent.BuildBatch` | src/agent/agent.cpp:202-219 | the loop builds one observation per device that could be probed, in order |
| `Agent.BatchCarriesAuthority` | src/agent/agent.cpp:206-217 | every observation of a batch carries the current authority and generations of the agent |
| `Agent.BatchArrives` | src/agent/agent.cpp:222-229 | a published batch that fits a frame is decoded at the other end to its clipped observations |
| `Probing.ProbePlaced` | include/gpufleetagent/observation/pipeline.hpp:78-112 | the batch holds, in its place, the observation of each device that could be probed: every flag, figure and text of the probe under the agent's generations |
| `Probing.ProbeDecides` | src/agent/agent.cpp:199-234 | from probe to verdict: a batch published by parties in step that can be sent, delivered after anything allowed, leaves each probed device holding what its probe found, with texts cut; HEALTHY exactly when the probe was taken at a set time, within a day and not before what was held, and presence, driver, CUDA, allocation, kernel, synchronisation, copy back and verification all succeeded; ELIGIBLE exactly when it is besides undrained and unquarantined |
| `Channel.BatchAnswered` | src/coordinator/coordinator.cpp:195-205 | exactly what becomes of the frame of a published batch: ingested when the batch is within the count bounds and the frame, the connection dropped when the frame is over 16 MiB, no change otherwise |
| `Channel.AcceptedExactly` | src/coordinator/coordinator.cpp:195-205 | of parties in step, a delivered batch is accepted, whole and in order, exactly when it can be sent; otherwise the store is unchanged |
| `Channel.EverySendableIsAccepted` | src/agent/agent.cpp:199-234 | over every run of publishing, in-order delivery and calls that leave the authority of the worker alone: of the batches handled exactly those that can be sent have been accepted, once and in order; the others are in flight, behind a frame that is too long when the connection has been dropped |
| `Channel.EverythingPublishedIsAccepted` | src/agent/agent.cpp:199-234 | when all that was published can be sent, the connection is open, and everything is accepted or in flight |
| `Channel.DeliveredNotSwept` | include/gpufleetagent/fleet/fleet_state.hpp:296-315 | no device that a delivered batch reports is swept by it; each holds exactly what its observation says |
| `Channel.RegisteredInStep` | include/gpufleetagent/fleet/fleet_state.hpp:120-178 | agent and store are in step as soon as an agent with a boot id of its own has registered |
| `Conversation.ConversationAccepted` | src/coordinator/coordinator.cpp:81-130 | a registration and batches, encoded, framed, cut into any chunks, received, decoded and dispatched: exactly those batches are accepted that can be sent and that none precedes that is too long for a frame; the worker is fenced at the end exactly when there is none too long |
| `Coordinator.Dispatch` | src/coordinator/coordinator.cpp:147-283 | which call on the store each message leads to, and that no other message changes it |
| `Dispatching.HeartbeatMessage` | src/coordinator/coordinator.cpp:184-194 | a heartbeat has effect under the epoch, worker and boot of the message alone; one that names neither worker nor boot has none |
| `Dispatching.RegistrationMessage` | src/coordinator/coordinator.cpp:161-183 | a registration has the effect its payload asks for; a malformed one has none |
| `Dispatching.ReportMessage` | src/coordinator/coordinator.cpp:195-205 | each kind of report is ingested in the name of the worker of the message, with a threshold of 86400000 ms and no requirement; a malformed one has no effect |
| `Dispatching.DrainMessage` | src/coordinator/coordinator.cpp:217-233 | the effect of a drain or undrain message, by the bytes of its payload: a target of at most 1024 bytes and a level of at most 2; any other payload has none |
| `Dispatching.QuarantineMessage` | src/coordinator/coordinator.cpp:234-254 | the effect of a quarantine message, by the bytes of its payload: target, reason of at most 512 bytes, source of at most 128, generation; time and authority are the coordinator's |
| `Dispatching.ClearMessage` | src/coordinator/coordinator.cpp:255-262 | the effect of a clearance, by the bytes of its payload, at the epoch of the store |
| `Dispatching.EpochMessage` | src/coordinator/coordinator.cpp:263-268 | an epoch roll moves the store to the epoch of the message when it is newer |
| `Dispatching.OthersSilent` | src/coordinator/coordinator.cpp:151-283 | no other kind of message changes the store |
| `Dispatching.EpochFences` | src/coordinator/coordinator.cpp:147-283 | over all messages in any state: the authority of a worker changes only by its registration or a heartbeat of its boot at the current epoch; what is accepted comes from the report, at the current epoch, from the recorded boot of an unfenced worker; the epoch only rises, by a roll |
| `Dispatching.ForeignEpochRefused` | src/coordinator/coordinator.cpp:147-283 | a heartbeat, registration or report that carries another epoch leaves the store as it is |
| `Dispatching.AgentRegisters` | src/agent/agent.cpp:122-151 | the registration an agent makes, field by field, has its effect on the coordinator's store |
| `Dispatching.ConnectionEnds` | src/coordinator/coordinator.cpp:81-130 | a connection that ends in order: each message has had its effect in turn, and then the worker registered last on it is lost, with its devices |
| `Coordinator.HandleConnection` | src/coordinator/coordinator.cpp:81-130 | the store after a connection depends on the bytes received and not on how they were cut; a malformed message or frame ends it without marking anybody lost |
| `Coordinator.ConversationServed` | src/coordinator/coordinator.cpp:81-130 | messages encoded, framed, cut into any chunks and served do exactly what dispatching them in order does, up to the first that cannot be sent; without one, closing marks the worker lost, with one, nobody |
| `Coordinator.BatchIngested` | src/coordinator/coordinator.cpp:195-205 | what an agent publishes is ingested under its own name, clipped |
| `Lifetime.MessageDelivers` | src/coordinator/coordinator.cpp:147-283 | whatever bytes a message holds, the call it asks for has identities within the text limits and lists within 4096 |
| `Lifetime.LifeConsistent` | src/coordinator/coordinator.cpp:20-58 | through messages of any content, losses, saves and restarts from the state file, store and saved state stay consistent, with identities and capability lists within the limits |
| `Lifetime.RestartExactly` | src/coordinator/coordinator.cpp:40-49 | at any time of such a life the process can be started again exactly when there is room in the state file in the sense of `Saving.SavableExact` |
| `Lifetime.LifeInvariant` | src/coordinator/coordinator.cpp:20-58 | when no state file it starts from holds a key over 256 bytes, a coordinator keeps the whole invariant for life |
| `Lifetime.GoneForLife` | include/gpufleetagent/fleet/fleet_state.hpp:210-243 | once a loss is saved, the incarnation stays fenced and what only it reports stays neither fresh nor ELIGIBLE, through every life without a registration under another boot |
| `Lifetime.FencedAfterRestart` | include/gpufleetagent/fleet/fleet_state.hpp:185-208 | a loss that is not saved is forgotten: after a restart a worker is fenced exactly when it was fenced at the last save |
| `Chronicle.ChronicleFollows` | src/coordinator/coordinator.cpp:40-55 | remembering acceptances across restarts changes nothing that the program keeps |
| `Chronicle.LifeReplaySafety` | include/gpufleetagent/fleet/fleet_state.hpp:185-294 | over every life in which superseded incarnations stay away, devices have one reporter, and each restart finds nothing accepted since the save and no live device with a cut key: nothing is accepted twice, restarts included |
| `Forgotten.UnsavedIsAcceptedAgain` | include/gpufleetagent/fleet/fleet_state.hpp:185-294 | why restarts need an up-to-date state file: whatever was accepted since the last save can be accepted again after a restart, by calls that keep to the discipline, unless another saved key is cut to the key of its device |

## Left out

- Sockets, threads, process start and stop, sleeping, file calls and atomic renames, command line, examples, CUDA
  probing and the synthetic backend: input and output, or foreign calls. The mutex becomes the atomicity of each call.
- Liveness.ExpireWorkers: one round, taken as a step of its own at a given time; that the loop sleeps and that other calls
  may come between its copy of the workers and a loss is not modelled. Nor is the stop flag, which can end the loop, end a
  connection early or suppress the final loss.
- Replies to messages, the hello exchange and SNAPSHOT_REQUEST: they do not change the store; nor does SAVE, which is an
  event of its own in `Lifetime`. A dispatch that reads the epoch before a quarantine call is taken as one step.
- Encoders of administrative payloads: simple strings and numbers. Their decoders are part of `Coordinator`.
- Error message texts, name tables of kinds that are not logged, `is_stable`, and unused helpers of the codecs.
- FleetStore.FleetStateStore.TakeSnapshot: the acceptance counter is an unbounded natural number, where the program
  counts in 64 bits.
- Pipeline.ComputeObservation: time differences are exact integers; the program would overflow for times more than
  2^63 milliseconds apart. The identity string of a UUID and the printed numbers in change records are modelled in full.
- Framing.DamagedFrameRejected: says nothing about damage to the length field, which moves the place where the checksum
  is looked for.
- SnapshotCodec.SnapshotRoundTrip: counts are written in 32 bits, so lists of 2^32 or more entries are outside it; so
  too for `RegistrationCodec.RegistrationRoundTrip`, `ObservationCodec.BatchRoundTrip` and
  `ObservationCodec.ObservationRoundTrip`.
- Encoding after decoding: flag bytes other than 0 and 1, unknown enumeration codes and duplicate nodes decode, so an
  accepted input need not be what the encoder writes.
- FleetReplay.ReplaySafety: its conditions are on the callers; the store itself does not enforce that superseded
  incarnations stay away and that each device has one reporter. Runs across a restore are the subject of
  `Recovery.ReplayAcrossRecoveryExact`.
- Recovery.ReplayAcrossRecoveryExact: is about a recovery of the state as it was saved; what was accepted after the last
  save is the subject of `Forgotten.UnsavedIsAcceptedAgain`.
- Channel.EverySendableIsAccepted: assumes generations do not wrap, one observation per device in a batch, frames shorter
  than 4 GiB and in-order delivery; reconnection is not part of it.
