# Nexora: a verified model of its hard parts

This project models six parts of Nexora in Dafny and proves what they promise. Each part keeps the form of its
source: objects with fields are classes, loops are loops with invariants, pure code is functions, and protocols are
state machines over the steps of all their participants.

1. **Lease fencing** (`Fence`, `DriverGate`, `Controller`, `StepExact`, `Runtime`, `LeaseProtocol`, `LeaseSafety`,
   `LeaseTightness`, `DriverLockstep`, `FailClosed`, `GateEffects`). Controllers share one Lease through
   compare-and-swap, and each owns a kernel gate that is open only inside a captured five-second window.
   `Controller.Step` is the imperative code; it is proved to make exactly the exchanges of a small machine (`Next`), and
   `StepExact` says of every Step, from the answers it got, whether it grants, waits or fails. `LeaseProtocol` runs any
   number of those
   machines with their drivers, clocks and one authority: GETs may return any revision ever written, CAS requests may
   take effect late or never and their replies may be lost, foreign writers may write, processes may stop anywhere,
   and each node reads its own clock. Results: no two gates are open at the same time, and windows of different
   owners are ordered with a gap. The margin this needs is exact (`MarginExact`): every run is exclusive if and only if
   `(1 - rho)(H + M - 1) >= (1 + rho)H`, where `rho` bounds the clock rate error, `H` is the window and `M` the margin
   in nanoseconds.
2. **TSIG** (`DnsNames`, `Tsig`, `TsigRoundTrip`, `TsigAuth`, `TsigStream`, `TsigFind`, `TsigLayout`). Byte-level
   writing, locating and parsing of TSIG records, request verification, and response streams with chained MACs. HMAC is
   any function that returns a digest of the right length. `TsigFind` and `TsigLayout` say by position what is found and
   what is signed.
3. **Wire format and cache** (`WireNames`, `NameSpelling`, `Edns`, `Wire`, `QueryRoundTrip`, `QueryExact`, `WalkFacts`,
   `WalkExact`, `Rcode`, `Cache`, `CacheServing`, `SynthReply`). Compressed names, queries, OPT records, the response
   walker, and the cache that stores upstream octets and patches them into replies. Results are stated octet by octet,
   and what is accepted is stated both ways.
4. **Identity renewal** (`Identity`, `Renewal`). Staging, promoting, discarding and recovering an identity as single
   file-system steps, with a crash possible after each one, recovery included.
5. **Rollout** (`Lock`, `LockProtocol`, `LockProgress`, `Rollout`). The deployment lock under every interleaving of
   clients and late or lost requests, what each call brings about when it is left alone, and the staged rollout with a
   DNS monitor beside it, which follows one script up to the first step that fails.
6. **Tables** (`Acl`, `Policy`, `AclBits`, `Reconciler`). Merged address ranges against a CIDR list, longest-prefix
   policy, both also bit by bit, and the IPVS and route reconciler.

`Common` and `Bytes` hold options and big-endian integers.

Where the code does not do what its documentation or its standard says, the model follows the code and the project
says exactly when they agree:

- `walk_response` takes the extended RCODE from the octet that section 6.1.3 of RFC 6891 makes the version.
  `Rcode.BadVersionMissed` is a BADVERS reply walked as NOERROR. `Rcode.RcodeExact`: of every accepted response with an
  OPT record the full RCODE is found if and only if its extension and version octets are equal and below 16, or the
  version is at least 16 and the RCODE is 255. Of the program's own replies it is found if and only if there is no
  extension (`SynthReply.RcodeRecovered`).
- A cached NXDOMAIN lives as long as its SOA allows, whatever answers stand beside it.
  `CacheServing.DeniedAnswerAtZero` is a reply served from a fresh entry with an answer of TTL 0.
  `CacheServing.FreshAnswersExact`: with a minimum setting of 0, all answers of all replies served from a fresh entry have
  positive TTLs if and only if the upstream RCODE is NOERROR, or each answer's TTL is positive and lasts as long as the
  lesser of the SOA's negative TTL and its setting keeps the entry fresh. `CacheServing.FreshAnswerExact` says the same
  for every setting.
- `allows_all` is exact for the addresses covered (`Acl.AllExact`) but not for the clients allowed, because v4-mapped
  addresses are looked up as v4. `Acl.MappedGapAdmits` is a table that allows everyone without saying so;
  `Acl.AllAdmits` says exactly when that happens.
- A margin above zero, which is all `New` asks of it, is enough only for clocks of equal rate
  (`LeaseSafety.EqualRatesSuffice`);
  `LeaseTightness.MarginIsNecessary` builds a run with two open gates, of two controllers with different identities, for
  every margin that is too small.

Assumptions: resourceVersions never repeat; lock tokens and UIDs are fresh; a certificate belongs to one key; file-system
steps are atomic and survive a crash in the order they were made; one engine per state directory.

## Model

| member | source | states |
|---|---|---|
| Fence.Process.Serve | deploy/failover/fence/driver.c:351-387 | the command loop answers and ends exactly as the fold of its one-command step over the input |
| Fence.HandleKeepsSlotCaptured | deploy/failover/fence/driver.c:357-386 | every command keeps the kernel map empty or holding a window of exactly five seconds, captured and armed by this driver |
| Fence.ServedSlotIsCaptured | deploy/failover/fence/driver.c:351-387 | after any command sequence the kernel map is empty or holds such a window |
| Fence.NoTicketArmsNothing | deploy/failover/fence/driver.c:351-375 | without an outstanding ticket no ARM takes effect, whatever it requests |
| Fence.AnswerTells | deploy/failover/fence/driver.c:351-387 | each answer tells what was done: DENIED the map emptied and the ticket dropped, ARMED the outstanding ticket in the map, a ticket its capture and five seconds, REJECTED nothing or, in the dual lab, the map emptied and the driver ended; no answer means the driver ended with its map as it was |
| Fence.DriverAnswers | deploy/failover/fence/driver.c:351-387 | a running driver whose map can be updated: DENIED exactly for DENY, a ticket exactly for CAPTURE unless a dual one is out, ARMED exactly for the outstanding ticket within its five seconds, else REJECTED |
| Fence.SlotToldByAnswers | deploy/failover/fence/driver.c:351-387 | after any command sequence the map holds what the answers given so far say |
| Fence.CaptureArmOpens | deploy/failover/fence/driver.c:351-387 | a CAPTURE and an ARM of its ticket within five seconds open the gate until its deadline |
| DriverGate.ExchangeExact | deploy/failover/lease/driver.go:113-248 | an exchange succeeds if and only if nothing interfered and the answer is the one asked for: a later ticket of five seconds while none is out, ARMED for the one that is, or DENIED; anything else poisons the gate |
| DriverGate.DriverGate.Capture | deploy/failover/lease/driver.go:193-225 | a CAPTURE exchange with the checks and the line recorded at the pipes: the ticket that line carries is kept and returned, or the gate poisoned |
| DriverGate.DriverGate.Arm | deploy/failover/lease/driver.go:226-239 | only the outstanding ticket is sent; it is acknowledged and gone exactly when the recorded answer is ARMED in time; anything else poisons the gate |
| DriverGate.DriverGate.Deny | deploy/failover/lease/driver.go:240-248 | acknowledged exactly when the recorded answer is DENIED in time, and then the ticket is forgotten; anything else poisons the gate |
| DriverGate.DriverGate.Close | deploy/failover/lease/driver.go:253-257 | one last DENY attempt, then poisoned for good |
| Controller.Controller.constructor | deploy/failover/lease/controller.go:88-99 | a new controller has started nothing and holds nothing |
| Controller.Controller.Now | deploy/failover/lease/controller.go:100-107 | a clock reading that is zero or goes back is refused and not recorded |
| Controller.Controller.Fail | deploy/failover/lease/controller.go:108-124 | a failure drops authorisation and quarantine, then asks DENY; a failed DENY makes the controller terminal |
| Controller.Controller.Step | deploy/failover/lease/controller.go:128-252 | the exchanges are one Step of the machine and no more: at most one GET, one CAS and one ARM, the last two only over its own acknowledged record or one quarantined by earlier Steps; acknowledged, it armed exactly its ticket and owns the successor of the record read |
| Controller.StepTold | deploy/failover/lease/controller.go:128-252 | in every run of the machine the events of a Step tell what it read, wrote and armed, phase by phase |
| StepExact.StepOutcome | deploy/failover/lease/controller.go:128-252 | every Step of every run told by its answers: acknowledged with the successor of the record read after fifteen good ones, quiet while a revision is watched, else failed, and terminal exactly after the answers that make it so |
| StepExact.GrantExact | deploy/failover/lease/controller.go:128-252 | a Step is acknowledged if and only if all its answers are good |
| StepExact.RunRemembers | deploy/failover/lease/controller.go:153-252 | in every run a controller knows its own acknowledged record, the UID it pinned and the record it watches |
| StepExact.RenewalSucceeds | deploy/failover/lease/controller.go:128-252 | in every run a holder that reads its own record back, field by field, with rising readings, live contexts, a fresh nonce, a good ticket and its write confirmed is acknowledged and owns the record one epoch on |
| StepExact.AcquisitionSucceeds | deploy/failover/lease/controller.go:128-252 | the same for a record watched unchanged for five seconds and the margin |
| Controller.Controller.Observe | deploy/failover/lease/controller.go:140-170 | the read, the deadline and the second clock reading follow the machine |
| Controller.Controller.Decide | deploy/failover/lease/controller.go:156-187 | identity checks, renewal test and overflow test follow the machine |
| Controller.Controller.Quarantine | deploy/failover/lease/controller.go:171-184 | a revision other than the watched one restarts the quarantine and denies |
| Controller.Controller.Prepare | deploy/failover/lease/controller.go:188-198 | nonce and clock before CAPTURE follow the machine |
| Controller.Controller.Ticket | deploy/failover/lease/controller.go:199-216 | only a ticket captured between the two readings, of at most five seconds and not expired, goes on to the CAS |
| Controller.Controller.Swap | deploy/failover/lease/controller.go:213-233 | only a verified, timely acknowledgement of its own next record goes on to ARM |
| Controller.Controller.Grant | deploy/failover/lease/controller.go:234-236 | ARM of the ticket captured before the write; a failure is terminal |
| Controller.Controller.Settle | deploy/failover/lease/controller.go:237-251 | only after an ARM acknowledged in time is the write remembered as its own |
| LeaseSafety.StepKeeps | deploy/failover/lease/controller.go:128-252 | every action of any participant keeps the lease history invariant |
| LeaseSafety.RunInv | deploy/failover/lease/controller.go:128-252 | the invariant holds in every state of every run |
| LeaseSafety.LaterOwnersWaited | deploy/failover/lease/controller.go:165-230 | between writes of different owners the later one's ticket was captured a full quarantine after the earlier write, renewals in between or not |
| LeaseSafety.NewClaimsWaited | deploy/failover/lease/controller.go:165-230 | a write that is no renewal, also one over the author's own unacknowledged write, was captured a full quarantine after every write before it |
| LeaseSafety.RenewalsFollowOwn | deploy/failover/lease/controller.go:165-230 | a renewal directly follows a write of its own author |
| LeaseSafety.OpenMeansRecent | deploy/failover/fence/gate.h:10-15 | an open gate belongs to one successful write whose ticket was captured before it and less than a window ago |
| LeaseSafety.WindowsOrdered | deploy/failover/lease/controller.go:165-230 | armed windows of different owners are ordered like their writes, with the drain time between them |
| LeaseSafety.GatesSeparated | deploy/failover/fence/gate.h:10-15 | in every run gates of different nodes are open only at times more than the drain apart |
| LeaseSafety.MutualExclusion | deploy/failover/lease/controller.go:128-252 | in every run at most one gate is open at any real time |
| LeaseSafety.RatedGatesSeparated | deploy/failover/lease/controller.go:63-69 | the same for clocks of bounded rate error and margins that pay for it |
| LeaseSafety.EqualRatesSuffice | deploy/failover/lease/controller.go:63-69 | with equal clock rates any accepted margin suffices, all but a nanosecond of it being left as gap |
| LeaseTightness.MarginIsNecessary | deploy/failover/lease/controller.go:63-69 | for every margin too small for a rate error two controllers with different holder identities have a run with both gates open |
| LeaseTightness.MarginExact | deploy/failover/lease/controller.go:63-69 | exclusion over all runs of controllers with pairwise different holders holds if and only if the quarantine on a fast clock outlasts the window on a slow one |
| DriverLockstep.RunLockstep | deploy/failover/lease/driver.go:113-166 | in every run an unpoisoned gate and its driver agree on the outstanding ticket after every exchange, and no ticket is armed twice |
| DriverLockstep.PoisonedIsSilent | deploy/failover/lease/driver.go:94-96 | a poisoned gate stays poisoned and sends nothing more |
| FailClosed.RunAccounts | deploy/failover/lease/controller.go:108-124 | in every run the gate may be armed only while a Step is under way, the controller holds the acknowledgement or is terminal |
| FailClosed.IdleGateIsDenied | deploy/failover/lease/controller.go:108-142 | between Steps, a controller that neither holds nor is terminal was denied since its last ARM |
| FailClosed.FailedStepIsClosed | deploy/failover/lease/controller.go:118-124 | after a failed Step the last exchange was an acknowledged DENY with nothing authorised, or the controller is terminal |
| FailClosed.TerminalIsFinal | deploy/failover/lease/controller.go:131-133 | terminal is absorbing: no GET, CAPTURE, CAS or ARM follows |
| GateEffects.IdleGateIsShut | deploy/failover/fence/gate.h:10-15 | in every run of the protocol the gate of a node between Steps that is not terminal and holds no acknowledgement is shut, its map empty |
| GateEffects.DeniedStaysShut | deploy/failover/fence/driver.c:351-387 | in every run, from an acknowledged DENY until the next ARM is asked for, the map is empty |
| GateEffects.ArmedStaysOpen | deploy/failover/fence/gate.h:10-15 | in every run, from an acknowledged ARM until its driver handles another command, the map holds that window, and the gate is open exactly inside its five seconds |
| Runtime.Round | deploy/failover/runtime/runtime.go:113-153 | one turn of the loop: exactly one Step, the looks taken after it, and that the loop stops exactly on a failure, a refused ARM or a Step without ARM while a ticket is held |
| Runtime.Run | deploy/failover/runtime/runtime.go:97-165 | the turns are exactly the Steps recorded in the controller's world, their records, tickets, clock readings and verdicts read off the two logs; every ARM asked for after an acknowledged one, answered or not, replaces exactly the record held, in a Step begun before its deadline; after the first grant every Step but the last armed, and a Step without ARM then is the last; it stops only for what it last saw: its context or time ended, the deadline passed, a failed Step or a late ARM |
| Runtime.JudgedExact | deploy/failover/runtime/runtime.go:125-153 | an ARM is taken up if and only if the context was alive right after the Step and the clock then read within the ticket's time |
| DnsNames.Skip | engine/src/tsig.rs:106-125 | the skipping loop finds the offset past a name or fails |
| DnsNames.SkipNameLocal | engine/src/tsig.rs:106-125 | skipping depends only on the octets it skips |
| DnsNames.EncodedNameReads | engine/src/tsig.rs:106-125 | skipping and decoding both invert encoding, wherever the name stands |
| Tsig.ScanRecords | engine/src/tsig.rs:215-236 | one pass decides whether the records walk with a TSIG at most in last place, where they end, and where it starts |
| Tsig.Find | engine/src/tsig.rs:204-241 | malformed, absent or the parsed record, for every message |
| TsigFind.DecodeExact | engine/src/tsig.rs:170-199 | a name is read exactly if it stands there uncompressed in at most 255 octets |
| TsigFind.SkipExact | engine/src/tsig.rs:106-125 | a name is skipped to an offset exactly if its labels or one pointer end there |
| TsigFind.WalkExact | engine/src/tsig.rs:204-236 | a message walks exactly if its questions and records stand one after the other within it |
| TsigFind.ParseExact | engine/src/tsig.rs:170-199 | a record is parsed exactly if all its fields stand at their places and end the message |
| TsigFind.FindExact | engine/src/tsig.rs:204-241 | absent exactly without a TSIG RR, present exactly if the last record is a well-formed one of class ANY in the additional section and no other is one |
| TsigFind.OffsetExact | engine/src/tsig.rs:128-153 | the offset of a stream message's TSIG is that of its last record, exactly if that is of its type and ARCOUNT is not zero |
| TsigRoundTrip.Packet.Append | engine/src/tsig.rs:283-331 | the message with the record appended and ARCOUNT one higher, wrapping |
| TsigRoundTrip.RdataParses | engine/src/tsig.rs:170-199 | RDATA that ends a message parses to the fields it was written with |
| TsigRoundTrip.WrittenRecordParses | engine/src/tsig.rs:170-199 | a written record parses to its fields |
| TsigRoundTrip.AppendedIsFound | engine/src/tsig.rs:204-241 | what is appended to a message that walks to its end is found: exactly the written fields, at the old end, whatever the ID became |
| TsigRoundTrip.StrippedRestores | engine/src/tsig.rs:427-441 | cutting there, restoring the ID and decrementing ARCOUNT gives the original octets back |
| TsigAuth.SignRequest | engine/src/tsig.rs:340-346 | the MAC over message and variables, and the message signed with it |
| TsigAuth.VariablesDetermine | engine/src/tsig.rs:257-280 | equal variables come from equal key names, algorithms, times, fudges, errors and other data |
| TsigLayout.VariablesLayout | engine/src/tsig.rs:257-280 | the signed variables octet by octet: lowercase key name, class ANY, TTL 0, lowercase algorithm name, 48-bit time, fudge, error, length and other data |
| TsigLayout.RequestInputLayout | engine/src/tsig.rs:340-346 | the MAC of a request covers the whole message and behind it the variables |
| TsigLayout.SignedLayout | engine/src/tsig.rs:283-331 | the signed message: the old octets with ARCOUNT one higher, then the record field by field with the message's ID |
| TsigLayout.VerdictExact | engine/src/tsig.rs:427-473 | the verdict on every message that carries a TSIG RR, for any fudge, error and other data: key by name and algorithm, full MAC over the restored message and the variables sent, then the time |
| TsigLayout.FoundFields | engine/src/tsig.rs:170-241 | the fields of a TSIG RR that was found stand at the end of the message |
| TsigAuth.RequestRoundTrip | engine/src/tsig.rs:427-473 | verifying a signed request: accepted exactly when the ring's key of that name has the same algorithm and MAC and the time is within the fudge; otherwise BadKey, BadSig or BadTime in that order |
| TsigAuth.PlainIsUnsigned | engine/src/tsig.rs:444-449 | a message that walks without a TSIG is unsigned under any ring |
| TsigStream.LastRecord | engine/src/tsig.rs:137-149 | the record pass remembers exactly the last record, or fails where the walk fails |
| TsigStream.Offset | engine/src/tsig.rs:128-153 | where the last additional record starts, when it is a TSIG |
| TsigStream.SignResponse | engine/src/tsig.rs:350-384 | the chained MAC over prior MAC, unsigned messages, message and variables or timers, and the signed message |
| TsigLayout.ResponseInputLayout | engine/src/tsig.rs:350-369 | the chained input octet by octet: length and prior MAC if there is one, the unsigned messages, the message, the variables |
| TsigLayout.ResponseMacCovers | engine/src/tsig.rs:350-384 | the MAC of a response covers the chain, the message and the full variables first, only the timers later |
| TsigLayout.ResponseInputDetermines | engine/src/tsig.rs:350-369 | for prior MACs and unsigned messages of equal lengths, equal inputs come from equal parts |
| TsigLayout.StreamInputDetermines | engine/src/tsig.rs:350-384 | equal signed inputs of a stream come from equal messages, times and fudges, also where only the timers are signed |
| TsigStream.StreamSigner.Sign | engine/src/tsig.rs:555-558 | signing in place advances the chain as the sender's step does |
| TsigStream.TsigVerifier.Verify | engine/src/tsig.rs:581-629 | every outcome of the stream verifier and its new state |
| TsigLayout.StreamVerdictExact | engine/src/tsig.rs:581-629 | the verdict on every stream message that ends in a TSIG RR: key, reported error, MAC over the chain, time; accepted, its MAC is chained next |
| TsigLayout.BareVerdictExact | engine/src/tsig.rs:581-597 | a message without one is refused in first place, else kept for the next MAC, up to 99 of them |
| TsigStream.TsigVerifier.Finish | engine/src/tsig.rs:632-638 | the end is refused exactly when nothing was signed or unsigned messages are pending |
| TsigStream.SignedStep | engine/src/tsig.rs:581-629 | a signed message, relayed under any ID, brings the verifier to the sender's state unless its time is off |
| TsigStream.StreamAccepted | engine/src/tsig.rs:540-639 | a stream is accepted to its end if and only if its first and last messages are signed, no hundred in a row are bare, and every signed one is on time |
| TsigStream.SignedStreamAccepted | engine/src/tsig.rs:540-560 | a stream signed message by message is refused only for its times |
| WireNames.CopyLabel | engine/src/wire.rs:398-401 | the inner loop lowercases one label into the key and leaves the rest of it |
| WireNames.Read | engine/src/wire.rs:378-423 | the reading loop yields the key and end offset of the recursive reading, or fails |
| WireNames.CapOnlyRefuses | engine/src/wire.rs:408-417 | the hop cap only refuses names, it never changes one |
| WireNames.ReadPlain | engine/src/wire.rs:378-423 | without pointers exactly the plain names of at most 255 octets are read, lowercased |
| WireNames.ReadNameYieldsKey | engine/src/wire.rs:378-423 | every key is a valid lowercase name that reading maps to itself, and its end lies past its start inside the message; the measure needs no hop cap |
| NameSpelling.ReadSpells | engine/src/wire.rs:378-423 | every compressed name read is spelled there: lowercase labels, at most 128 pointers each strictly back, at most 255 octets, and its end |
| NameSpelling.SpellsRead | engine/src/wire.rs:378-423 | every name spelled so is read |
| WireNames.FromWireExact | engine/src/wire.rs:47-52 | `from_wire_lowercase` accepts exactly the valid names of at most 255 octets and lowercases them |
| Edns.WriteOpt | engine/src/edns.rs:153-180 | the OPT octets at the given place and nothing else, or nothing when they do not fit |
| Edns.ScanOpt | engine/src/edns.rs:84-120 | the option loop is the fold of its options, with every length checked |
| Edns.OptRoundTrip | engine/src/edns.rs:84-180 | a written OPT record parses back to its size, DO bit and cookies, whatever follows it |
| QueryExact.OptOctets | engine/src/edns.rs:153-180 | the octets of a written OPT record, cookie and extended error included |
| QueryExact.OptParsed | engine/src/edns.rs:84-120 | an accepted OPT record: head and options at their places, the last good cookie split after 8 octets, and whether any cookie has a wrong length |
| QueryExact.OptParses | engine/src/edns.rs:84-120 | every such record is accepted |
| QueryExact.LimitExact | engine/src/edns.rs:123-129 | the reply limit: the client's size between 512 and 1232 over UDP, 65535 elsewhere |
| Wire.ParsedQueryOk | engine/src/wire.rs:118-159 | every parsed query has a valid name, its lowercase key and the right question end |
| Wire.WalkRecords | engine/src/wire.rs:291-349 | the record loop of one section is the fold over its records |
| Wire.Walk | engine/src/wire.rs:267-355 | all sections in order, and the message must end where they do |
| QueryRoundTrip.QueryParses | engine/src/wire.rs:118-159 | a query written from its parts parses to exactly them; responses and other opcodes are refused |
| QueryExact.QueryFound | engine/src/wire.rs:118-159 | every accepted query stands in the octets: QR and opcode clear, one plain question, perhaps an OPT record, nothing else; its parts are those |
| QueryExact.QueryAccepted | engine/src/wire.rs:118-159 | every such query is accepted |
| QueryExact.QueryRefused | engine/src/wire.rs:118-130 | the reason of every refusal: too short, a response, another opcode, malformed |
| WalkFacts.TakeKeeps | engine/src/wire.rs:293-348 | every record keeps TTL fields in order, apart from each other and from the OPT record, and the least answer TTL |
| WalkFacts.WalkedOk | engine/src/wire.rs:267-355 | of every accepted response: TTL fields past the question, in range and disjoint, together with the OPT record all records, and the minimum TTL that of exactly the answers |
| WalkFacts.NegativeTtlExact | engine/src/wire.rs:288-346 | the negative TTL is the least of TTL and MINIMUM over the authority's SOA records, for NXDOMAIN or answerless replies only |
| WalkFacts.CountsSmall | engine/src/wire.rs:267-355 | an accepted response has so few records that ARCOUNT + 1 never overflows, and an OPT record means ARCOUNT is not zero |
| WalkExact.QuestionExact | engine/src/wire.rs:363-374 | the question matches exactly if it is the only one, plain, and the expected name up to case, type and class |
| WalkExact.WalkedExact | engine/src/wire.rs:267-355 | an accepted response divides into records that fit their sections, with at most one OPT record; recorded are its TC bit, its answer count, the offset of every other TTL, the targets of its CNAME answers and the OPT record |
| WalkExact.ExactWalks | engine/src/wire.rs:267-355 | every such response is accepted |
| Rcode.RcodeExact | engine/src/wire.rs:267-355 | of every accepted response: no OPT outside the additional section and at most one inside; without one the RCODE is the header's; with one it is the full RCODE if and only if extension and version are equal and below 16, or the version is larger and the RCODE is 255 |
| Rcode.BadVersionMissed | engine/src/wire.rs:314-318 | an accepted upstream reply with extension 1 and version 0, RCODE 16, is walked as NOERROR |
| Cache.EntryFrame | engine/src/cache.rs:177-207 | storing keeps every octet but ARCOUNT and the question name, drops only a trailing OPT record and moves no TTL field |
| Cache.PatchTtls | engine/src/cache.rs:238-249 | the patch loop gives every TTL field its served value and changes nothing else |
| Cache.WriteTruncated | engine/src/cache.rs:228-235 | header and question with TC, all counts zero but an OPT |
| Cache.WriteCached | engine/src/cache.rs:216-265 | the whole entry patched when it fits the limit and the buffer, else header and question with TC, else nothing: every octet of the reply and none past it, each TTL what is left of it since insertion or 30 when stale, never more than the client's own limit |
| Cache.Servable | engine/src/cache.rs:216-265 | every stored entry can be served whole, at any time and in either mode, to every client whose name has its length |
| CacheServing.Admit | engine/src/cache.rs:118-152 | a reply is cached if and only if it walks, its OPT record is last and it has a lifetime: the shortest answer moved into the settings' bounds, or for a denial the lesser of SOA and setting; stale until lifetime and window have passed; the reason of every refusal |
| CacheServing.KeySeparates | engine/src/cache.rs:30-46 | two queries share an entry if and only if name, type, class, CD, DO and partition agree |
| CacheServing.LookupExact | engine/src/cache.rs:109-115 | fresh before insertion plus lifetime, stale before the deadline, else a miss, in plain seconds |
| CacheServing.WireCache.Insert | engine/src/cache.rs:118-152 | the outcome of every insertion under any key; each entry stems from an accepted reply, and from one to its own key's question as long as every insertion used its own key |
| CacheServing.WireCache.Find | engine/src/cache.rs:109-115 | fresh, stale or miss; the entry found is well formed and, if all insertions used their own keys, answers the key's question |
| CacheServing.ServedFrame | engine/src/cache.rs:177-265 | a served reply equals the upstream one outside ID, flags, ARCOUNT, question name and the disjoint TTL fields, each of which holds the upstream TTL minus the elapsed time, not below zero, or 30 when stale |
| CacheServing.HeaderServed | engine/src/cache.rs:252-259 | the flags a client sees: AA cleared, RD its own, AD only if it set AD or DO, the rest as upstream |
| CacheServing.HitRelays | engine/src/cache.rs:109-265 | any hit under a client's key, served, relays some accepted upstream reply to the same question asked with the same CD and DO bits, under the client's own question |
| CacheServing.UncachedKeepsTtls | engine/src/cache.rs:170-173 | an uncached reply served at time zero keeps every TTL |
| CacheServing.QuestionEchoed | engine/src/cache.rs:252-259 | the reply carries the client's own question in its own casing |
| CacheServing.FreshAnswersPositive | engine/src/cache.rs:109-151 | with minimum setting 0 every answer of a NOERROR reply has a TTL of at least 1 in every whole reply served from a fresh hit |
| CacheServing.FreshAnswerExact | engine/src/cache.rs:109-151 | the same answer by answer for all settings: a NOERROR answer has to outlive the minimum setting, one beside a denial the denial's lifetime |
| CacheServing.FreshAnswersExact | engine/src/cache.rs:109-151 | with minimum setting 0: positive answer TTLs in every whole reply served from fresh hits if and only if the RCODE is NOERROR or every upstream answer TTL outlives the lesser of negative TTL and its setting |
| CacheServing.DeniedAnswerAtZero | engine/src/cache.rs:137-140 | a cached NXDOMAIN and a whole reply served from a fresh hit on it whose answer has TTL 0 |
| SynthReply.WriteSynthReply | engine/src/wire.rs:202-250 | the reply octets at the front of the buffer and nothing else, or nothing when it is too small |
| SynthReply.ReplyOctets | engine/src/wire.rs:202-250 | the octets of header and answer: ID, QR, RA, RCODE, counts, a pointer to the question, type, class, TTL, length and address |
| SynthReply.SynthWalks | engine/src/wire.rs:202-355 | a synthesized reply walks: low RCODE, answer count, TTL offset and OPT range are those written |
| SynthReply.RcodeRecovered | engine/src/wire.rs:202-250 | of the program's own replies the walker recovers the full RCODE if and only if the OPT record carries no extension |
| SynthReply.SynthStored | engine/src/cache.rs:177-207 | storing the reply written with OPT gives the reply written without it, its question name lowercased |
| Identity.Disk.RemoveTree | engine/src/cert_renewal.rs:138-143 | stopped anywhere, the directory is gone or has lost some files, and no other one is touched |
| Identity.Disk.Stage | engine/src/cert_renewal.rs:148-167 | stopped anywhere, the staged directory is the complete new one, what is left of the old one or absent, and the current one is untouched |
| Identity.Disk.Promote | engine/src/cert_renewal.rs:171-186 | refused without a complete staged identity; stopped anywhere, the current one is the old or the staged one or missing beside the staged one |
| Identity.Disk.DiscardStaged | engine/src/cert_renewal.rs:195-197 | only the staged directory loses files |
| Identity.Disk.Recover | engine/src/cert_renewal.rs:201-219 | stopped anywhere and done again, recovery ends in the same tree |
| Identity.RecoveredExact | engine/src/cert_renewal.rs:199-219 | recovery case by case: an identity in place stays, with a complete staged one beside it; else the staged one takes its place if complete, else the old one |
| Identity.RenewalContents | engine/src/cert_renewal.rs:148-167 | a renewal holds the new pair and exactly the other files of the current identity, temporary ones left out |
| Renewal.RecoveredInService | engine/src/cert_renewal.rs:199-219 | from every safe state recovery leaves a complete identity of one issued pair, confirmed by a stream, CA and engine ID unchanged |
| Renewal.RenewalGenuine | engine/src/cert_renewal.rs:148-167 | what is staged keeps the CA and the engine ID and carries the issued pair |
| Renewal.Engine.Boot | engine/src/control.rs:571-583 | a restart recovers and loads; crashing inside it leaves a state the next restart recovers alike |
| Renewal.Engine.PromoteUsed | engine/src/control.rs:726-740 | the staged identity the accepted stream used is promoted whole, if it still is the staged one; any other stays |
| Renewal.Engine.StageIssued | engine/src/control.rs:846-868 | the staged identity is the current one with the issued pair, the current one unchanged |
| Renewal.Engine.Session | engine/src/control.rs:714-750 | the plane records the stream and its answer; accepted, the renewal fallen back from is dropped, the staged identity used is the current one afterwards, and an issued pair is staged; not accepted, the disk is untouched; the identity changes in no other way |
| Renewal.Engine.Round | engine/src/control.rs:471-550 | one turn of the control loop: the staged identity is used unless it just failed, else the current one; an accepted staged one is the current one afterwards, a refused one is discarded, one that failed otherwise is fallen back from; every disk state stays safe |
| Renewal.Engine.TwoRounds | engine/src/control.rs:471-550 | a pair issued in one round is the identity after the next, if that stream is accepted; with both failing, staged and current identity alternate and the disk stays |
| Renewal.Engine.Live | engine/src/control.rs:463-568 | any life of rounds, crashes and restarts: recovery always finds a complete, genuine and confirmed identity |
| Lock.DeploymentLock.Acquire | deploy/kwrollout/lock.go:52-93 | the exchanges of an acquisition are a path of the client machine of the protocol: a read, then a creation if absent or a guarded claim if free, else nothing; success exactly on a reply that confirms the token |
| Lock.DeploymentLock.Check | deploy/kwrollout/lock.go:97-100 | a path of the client machine; owned exactly when the object read has this UID and token |
| Lock.DeploymentLock.Release | deploy/kwrollout/lock.go:104-136 | a path of the client machine; clears only an object it still owns and forgets it only on confirmation |
| Lock.DeploymentLock.Note | deploy/kwrollout/lock.go:184-200 | a path of the client machine; a note never asks to change the owner and is guarded by UID and token |
| Lock.DeploymentLock.ReleaseHeld | deploy/kwrollout/lock.go:218-251 | a path of the client machine; nothing is written without the current token and confirmation |
| LockProtocol.StepKeeps | deploy/kwrollout/lock.go:52-251 | every call, late request, reply or loss keeps the ownership invariant |
| LockProtocol.RunInv | deploy/kwrollout/lock.go:52-251 | the invariant holds in every state of every run, begun with no object, a free one or one an earlier deployment still holds |
| LockProtocol.OwnerStays | deploy/kwrollout/lock.go:52-136 | from the write that made a token owner until its release is sent, the object's owner is that token |
| LockProtocol.AcquiredStays | deploy/kwrollout/lock.go:52-93 | the same from a successful acquisition on |
| LockProtocol.HolderOwns | deploy/kwrollout/lock.go:124-136 | a client that acquired and was not released owns the object, and no other such client exists |
| LockProtocol.ReleasedBy | deploy/kwrollout/lock.go:104-251 | a token is released only by its holder's Release or a confirmed ReleaseHeld presenting it |
| LockProtocol.LateRequestHarmless | deploy/kwrollout/lock.go:163-181 | a stale release or any other late request leaves a successor's ownership alone |
| LockProgress.ServerExact | deploy/kwrollout/lock.go:163-181 | the object as the API server keeps it: a patch takes effect exactly if UID, owner and the resourceVersion it names are as read |
| LockProgress.AcquireAlone | deploy/kwrollout/lock.go:52-93 | undisturbed, an acquisition takes a lock that is absent or free, its stage acquired and its UID known, and leaves a held one alone |
| LockProgress.ReleaseAlone | deploy/kwrollout/lock.go:104-136 | undisturbed, a release frees exactly the object its client owns and forgets it |
| LockProgress.ReleaseHeldAlone | deploy/kwrollout/lock.go:218-251 | undisturbed, a recovery frees the object exactly if confirmed and presenting the owner's token |
| LockProgress.NoteAlone | deploy/kwrollout/lock.go:184-200 | undisturbed, a note sets the stage of the client's own lock and nothing else |
| LockProgress.HandsOver | deploy/kwrollout/lock.go:52-136 | in every run the holder can release, and whoever acquires next has the same object |
| Rollout.ValidatePairs | deploy/kwrollout/run.go:272-297 | accepts exactly two pairs with distinct names, the two addresses, members on different nodes and four distinct workloads |
| Rollout.SoundDisciplined | deploy/kwrollout/run.go:68-270 | checks met step by step amount to the discipline over the whole trace |
| Rollout.Cluster.Healthy | deploy/kwrollout/run.go:163-171 | a gate counts only when it passed and the context was alive around it; otherwise the rollout stopped for that |
| Rollout.Cluster.Change | deploy/kwrollout/run.go:172-189 | a stage is applied only directly after an ownership check and, if rolling, after a full gate; ownership and stage are the plan's next steps |
| Rollout.Roll | deploy/kwrollout/run.go:235-245 | every workload once, in order, each gated before and verified after |
| Rollout.Run | deploy/kwrollout/run.go:68-270 | for all failures, cancellations and monitor interleavings: no mutation before lock, baseline and ownership, no rolling stage without a full gate, none before the last one is verified; its own steps are those of the script up to the first that fails, and all of them if and only if it succeeds; success means every workload rolled once and every step, gate and DNS round passed; unlocking comes last and only then; it fails only on invalid pairs, without monitoring, by a failed step or monitor round, or cancelled by its caller |
| Rollout.PlanIsScript | deploy/kwrollout/run.go:150-270 | the plan the rollout keeps to is the script written out: inspection, gates, preparation, frozen stage, cutover of legacy selectors, four restarts, final stage, bootstrap, final round, ownership, unlock |
| Acl.SortSorts | engine/src/acl.rs:17-18 | sorting orders the ranges and keeps each as often as it occurs |
| Acl.Merged | engine/src/acl.rs:17-27 | the merge loop gives sorted, disjoint, non-adjacent ranges covering the same addresses |
| Acl.CanonicalUnique | engine/src/acl.rs:6-13 | two such lists are equal if and only if they cover the same addresses |
| Acl.Covered | engine/src/acl.rs:29-32 | bisection answers whether some range covers the address |
| Acl.RangeHolds | engine/src/acl.rs:47-56 | an address lies between network and broadcast exactly when its prefix is the CIDR's |
| Acl.Parse | engine/src/acl.rs:44-64 | fails exactly on a text that is no CIDR; otherwise the tables cover what the list contains and the all flag is exact; every client is allowed exactly when the all flag holds or the only gap is in the v4-mapped block |
| Acl.AllExact | engine/src/acl.rs:62-69 | `allows_all` holds if and only if every address of both families is covered |
| Acl.AllAdmits | engine/src/acl.rs:62-90 | a table refuses no client exactly when the flag holds or v4 is full and the only v6 gap lies in the v4-mapped block |
| Acl.MappedGapAdmits | engine/src/acl.rs:62-90 | a table that refuses nobody while the flag is false |
| Acl.Allows | engine/src/acl.rs:80-88 | allowed exactly when some CIDR contains the address, v4-mapped ones as v4 |
| AclBits.ContainsByBits | engine/src/acl.rs:47-56 | a CIDR contains exactly the addresses of its family whose first bits, as many as its length, are its own |
| AclBits.UnmappedExact | engine/src/acl.rs:80-88 | `::ffff:a.b.c.d` is looked up as `a.b.c.d`, every other address as itself |
| Acl.TablesEqual | engine/src/acl.rs:6-13 | parsed tables are equal if and only if they contain the same addresses |
| Policy.Build | engine/src/filter.rs:392-413 | every CIDR to its group, each once, or the first text that is no truncated CIDR or repeats one, nothing before it being refused |
| AclBits.TruncatedExact | engine/src/filter.rs:392-397 | a CIDR is accepted exactly if its length fits its family and every host bit is clear |
| Policy.ByPrefixLen | engine/src/filter.rs:435-449 | per-length maps, longest first, holding exactly the family's CIDRs, in whatever order the map yields them |
| Policy.TableOf | engine/src/filter.rs:427-428 | the lookup table of both families holds exactly the given CIDRs, longest first |
| Policy.LongestUnique | engine/src/filter.rs:282-311 | an address has at most one longest matching CIDR |
| Policy.Select | engine/src/filter.rs:282-311 | the group of the longest CIDR that contains the address, or none when none does |
| Reconciler.StagingRuns | deploy/failover/platform/adapter.py:593-622 | adding what is missing in the planned order is applicable at every step, always accepted by inspection, and ends with everything wanted |
| Reconciler.CleanupRuns | deploy/failover/platform/adapter.py:558-592 | deleting what is there in the planned order is applicable at every step, always accepted, and ends with nothing |
| Reconciler.PlanFor | deploy/failover/platform/adapter.py:552-622 | the plan of one namespace leads from any accepted state to the goal and is empty exactly there |
| Reconciler.DesiredExact | deploy/failover/platform/adapter.py:317-333 | what is wanted, object by object: services, destinations and host routes of a frontend; address, rule, gateway routes and return paths elsewhere |
| Reconciler.RankOrder | deploy/failover/platform/adapter.py:552-622 | the order of staging: address, host routes, routes through gateways, rule, services, destinations |
| Reconciler.Plan | deploy/failover/platform/adapter.py:552-622 | the same for all namespaces of a host together, with commands of one kind only |
| Reconciler.PlanIsWork | deploy/failover/platform/adapter.py:552-622 | applicable commands of one kind that lead to the goal are exactly as many as objects are missing, or for cleanup present |
| Reconciler.Host.Reconcile | deploy/failover/platform/adapter.py:645-667 | interrupted after any number of commands every namespace is still accepted; each command run is one object's work less, so a resumed run continues; it is done, at the goal, exactly when the budget covers the work |

## Left out

- Tsig.Find: the names inside a TSIG record are read uncompressed, as signing writes them; the name library's compressed reading is not modelled.
- Controller.Controller.constructor: the bounds of IOTimeout and the pairing of a driver with its clock and one controller are not modelled; no Step depends on the first, and every node of the protocol has its own driver and clock.
- Runtime.Run: timers and tickers are not modelled; the number of rounds that fit into the configured duration is a parameter.
- TsigStream.TsigVerifier.Verify: compressed names inside a TSIG record are refused, as in Tsig.Find; the count of unsigned messages is unbounded, because it is compared with 99 and the stream ends there.
- Rollout.Run: the monitor's timing is not modelled; its rounds may fall anywhere between two steps.
- Identity.Disk.Recover: I/O errors other than crashes, and writes that reach the disk in another order, are not modelled.
- Renewal.Engine.Live: enrolment and two engines on one state directory are not modelled.
- Policy.Build: only CIDRs; filter views, rewrites and cache partitions of a group are not modelled.
- Reconciler.Plan: of inspection only the owned pools; links, addresses, sysctls and kernel routes are taken as accepted.
- Reconciler.Host.Reconcile: the inode, link, address and sysctl checks of inspection are taken as accepted.
- CacheServing.WireCache.Insert: weights and eviction order are not modelled; any entry may be dropped at any time.
- TSIG error responses and the key ring's updates: they would add only easy members.
- `write_error_reply` and server cookies: small writers beside the ones modelled.
- HTTP, TLS, JSON and process plumbing of the lease client, the lock and the rollout: the authority is a CAS register and the lock one object with guarded patches.
- Netlink, BPF loading and namespace checks of the driver: the kernel map is a variable.
- HMAC, X.509 and certificate verification: HMAC is a parameter and issued pairs are recorded by the management plane.
- Authoritative lookup, filter index, rewrite tables, zone digests and snapshots: not part of this model.
