# Verified model of the file transfer protocol and its companions

The plugin and its relay move files between two gateways out of band: the sending gateway
offers a file, the receiving gateway admits the offer and registers with a relay, the relay
pairs both sides by ticket and forwards exactly the declared bytes, the receiver checks the
hash, commits the file without overwriting anything and acknowledges, and only then is the
other agent told that the file is there. This project models those pieces in Dafny and
proves what they promise; beside them stand the smaller state machines of the same plugin.

`dafny verify dfyconfig.toml` checks everything.

| file | what it models |
|---|---|
| `Framing.dfy` | line framing over a chunked byte stream: the relay's header reader, the endpoints' line reader |
| `FileRelay.dfy`, `RelayInvariants.dfy`, `RelayTraces.dfy`, `RelayTheorems.dfy` | the relay as a state machine over socket and timer events, its invariant, how sessions evolve, its guarantees |
| `RelayDecisions.dfy` | what each event of the relay decides, stated without the state machine's own helpers |
| `RelayServer.dfy` | the relay's handlers and event loop in imperative form, equal to the state machine's runs |
| `Payload.dfy` | the payload loops of both endpoints and partial disk writes |
| `EndToEnd.dfy`, `EndToEndProof.dfy` | sender, relay, receiver, disk and strangers together; end-to-end commit |
| `EndpointDecisions.dfy` | what each step of the two endpoints decides |
| `Delivery.dfy`, `Codec.dfy` | every file that fits the limits can arrive; a line format that meets the assumptions |
| `Commit.dfy` | the no-clobber commit over names, inodes and contents |
| `TransferStates.dfy`, `Recovery.dfy`, `CrashSafety.dfy` | restart recovery, and every crash between any two effects |
| `Survival.dfy` | the sender's return and later crashes together |
| `DurableWrites.dfy` | the per-id chain of durable record writes |
| `ControlPlane.dfy`, `Notify.dfy` | receive admission, status and cancel; the sender's notify-after-commit rule |
| `Scheduler.dfy` | the bounded task scheduler |
| `PeerHealth.dfy` | the circuit breaker |
| `Outbox.dfy` | the retrying outbox |
| `StableSort.dfy`, `TransportFallback.dfy` | transport statistics, static and adaptive ordering |
| `TtlStores.dfy` | the idempotency store and the nonce cache |
| `Ipv6.dfy` | IPv6 and IPv4 texts against numeric ranges |

Conventions. An object whose methods change its fields is a class whose methods equate the new
state with a function of the old one; what is promised is then proved about that function, over
every run. A session object of the relay is a position in a heap, so comparing objects is
comparing positions. The code between two awaits is one step. Time is an input; JSON parsing,
the hash and the recovery curve are parameters.

Where the code does not do what its comments, or a natural reading, promise, the code is
modelled as it is, a lemma gives the failing case and another the exact condition:

- the commit's fallback renames or copies over a taken name on a volume whose link reports
  EPERM for it (`Commit.CarelessClobbers`, `Commit.SparesOthersIff`,
  `CrashSafety.PriorFileSurvivesIff`);
- on a volume without hard links the fallback also replaces a file that another program creates
  under the free name after its link was refused (`CrashSafety.LateFileIsLost`,
  `CrashSafety.LateFileSurvivesIff`, `Commit.CarefulNeverClobbers`);
- after a crash between a completed copy and the removal of its part, recovery gives the
  transfer up although the file is complete (`CrashSafety.FinishedCopyIsGivenUp`,
  `CrashSafety.InPlaceRecoversIff`);
- a durable write whose directory sync fails is rejected but visible, so the disk may hold a
  later snapshot than the last successful one (`DurableWrites.RejectedButVisible`,
  `DurableWrites.DiskHoldsLastSuccessIff`);
- a prepare decides on a record it loaded earlier, so a repeated prepare can be admitted over a
  record committed meanwhile, and loses the commit (`ControlPlane.RaceIsReachable`,
  `ControlPlane.CommitLostIff`, `ControlPlane.CommittedForGood`);
- starting a task removes another waiting task with the same id, which then never settles
  (`Scheduler.RepeatedIdIsLost`, `Scheduler.LosesIff`);
- an expired later `store` call hides an unexpired earlier one (`TtlStores.ShorterTtlHides`,
  `TtlStores.AnswersLatestLiveIff`).

## Model

| member | source | states |
|---|---|---|
| `RelayTheorems.StreamExactness` | server/file-relay.js:126-206 | over every run and every chunking: the receiver is sent a prefix of what the sender delivered after its header line, of length size minus remaining while the transfer stands, never past the declared size; WAIT_ACK exactly when the payload is complete (zero-size files included); the sender is told ok if and only if an acknowledgement matching id, size and hash was read after that |
| `RelayTheorems.Accounting` | server/file-relay.js:96-115 | in every reachable state the in-flight total is the sum of the live sessions' accounts and within its limit, live sessions are within theirs, an ended session with a sender released its size exactly once (a zero size never), and a live account never exceeds the total, so the clamp at zero never acts |
| `RelayTheorems.Pairing` | server/file-relay.js:208-293 | a session that ever started joins two distinct sockets whose registrations named its id, presented the same ticket and mirrored each other's devices |
| `RelayTheorems.Lifetime` | server/file-relay.js:117-164 | with timers firing on time every live session has a timer armed and is never older than the pairing time plus the absolute deadline |
| `RelayTheorems.PhasesAdvance` | server/file-relay.js:105-206 | over any continuation a session's phase only advances and its writes only grow; an ended session never changes again |
| `RelayInvariants.StepOk` | server/file-relay.js:208-320 | one event of any kind keeps the whole relay invariant: session table, accounts, each session's streams, listeners and timers |
| `RelayInvariants.RunOk` | server/file-relay.js:295-320 | the invariant holds after every event sequence from an empty relay |
| `RelayInvariants.FinishReleases` | server/file-relay.js:96-103 | ending a live session subtracts exactly its account: the total is the old total minus it and again the sum of all accounts, the table loses one entry, and the release is counted once (a zero account never) |
| `RelayInvariants.ConsumeForwards` | server/file-relay.js:177-191 | a chunk within the remaining size is forwarded whole and moves the session to WAIT_ACK exactly when it exhausts the remainder; a larger one fails the session and nothing of it is forwarded |
| `RelayInvariants.PairDecides` | server/file-relay.js:285-292 | with both sides present: mismatched devices fail the session; mirrored ones start it, and the bytes that came with the sender's header decide whether it then transfers, awaits the acknowledgement or has failed |
| `RelayTraces.StepEvolves` | server/file-relay.js:295-320 | what one event may do to each session and socket: a session hears exactly the bytes delivered on its own sockets, an ended one hears nothing, a socket joins a session only by the header its stream completed |
| `RelayDecisions.TimerDecides` | server/file-relay.js:105-164 | a pairing, stall or deadline timer that has run out fails its session and no other: it is off the table with no timer armed, its account is given back, and each party still open has the failure as its last line and is ended; a timer that has not run out does nothing |
| `RelayDecisions.ClockAdvances` | server/file-relay.js:105-164 | timers cannot hold up time: from every reachable state and for every later moment a finite list of timer and clock events brings the clock there |
| `RelayDecisions.CloseDecides` | server/file-relay.js:310-317 | a closed socket is gone, and the session that now holds the id it registered under fails with both parties told |
| `RelayDecisions.ErrorDecides` | server/file-relay.js:305-309 | a socket in error can be written no more, and the session that holds its id fails |
| `RelayDecisions.EndOfInputDecides` | server/file-relay.js:63-81 | the end of a stream refuses a header still awaited and fails the session of an acknowledgement still awaited |
| `RelayDecisions.HeaderDecides` | server/file-relay.js:63-81 | bytes of a header: waited for while no line is complete, refused if too long or no object, otherwise registered with what followed the line |
| `RelayDecisions.SessionDecides` | server/file-relay.js:218-237 | an acceptable header is for the live session of its id, or for a new one with its pairing timer armed; a new one is refused exactly when the session limit is reached |
| `RelayDecisions.ReceiverDecides` | server/file-relay.js:247-256 | a second receiver is refused, the first one is told that it is registered and its devices are kept |
| `RelayDecisions.SenderDecides` | server/file-relay.js:257-281 | a sender is refused for bad metadata, a taken seat, or exactly when its size and the accounts of all sessions exceed the limit (dropping a session nobody else joined); otherwise its size is added to the account and what followed its header is kept |
| `RelayDecisions.PairingDecides` | server/file-relay.js:283-292 | devices that do not mirror each other fail the session; otherwise the transfer begins with the bytes that followed the sender's header: forwarded within the size, failing the session beyond it, complete exactly at it |
| `RelayDecisions.PayloadDecides` | server/file-relay.js:177-191 | a chunk within what is missing is forwarded whole, restarts the stall timer and opens the wait for the acknowledgement exactly when nothing is missing; a larger one fails the session with nothing of it forwarded |
| `RelayDecisions.OverrunDecides` | server/file-relay.js:130-131 | any byte after the payload fails the session with both parties told |
| `RelayDecisions.AckDecides` | server/file-relay.js:132-149 | an incomplete acknowledgement line is waited for; one that names id, size and hash ends the session and is passed on to the sender; any other fails it |
| `RelayDecisions.StaleDecides` | server/file-relay.js:126-149 | bytes on a socket whose session has ended: payload is dropped, an overrun or a broken acknowledgement fails whatever session holds the id now |
| `RelayServer.Server.constructor` | server/file-relay.js:20-34 | the server starts with no sockets, no sessions and nothing in flight, in the relay invariant |
| `RelayServer.Server.ReleaseSession` | server/file-relay.js:96-103 | the new state is the specification's release of that session |
| `RelayServer.Server.CloseSocket` | server/file-relay.js:41-47 | one socket is ended and takes the response if it still can |
| `RelayServer.Server.DestroySession` | server/file-relay.js:105-115 | the session of that id fails, is released, and both its sockets are closed with the failure |
| `RelayServer.Server.CompleteSession` | server/file-relay.js:142-145 | the session is done and released, the sender is closed with the acknowledgement, the receiver without one |
| `RelayServer.Server.Consume` | server/file-relay.js:177-191 | the payload listener: exactly the specified pass-on, overrun failure, or end of payload |
| `RelayServer.Server.StartTransfer` | server/file-relay.js:152-206 | starts only a paired session in PAIRING; consumes the bytes that came with the sender's header; a zero-size payload is complete at once |
| `RelayServer.Server.PairSockets` | server/file-relay.js:286-292 | mismatched devices destroy the session, matching ones start it |
| `RelayServer.Server.JoinAsReceiver` | server/file-relay.js:247-256 | refusal of a second receiver, or membership and pairing |
| `RelayServer.Server.JoinAsSender` | server/file-relay.js:257-281 | the refusals for metadata, role and byte limit (which drops a session nobody else joined), or membership, account and pairing |
| `RelayServer.Server.RegisterSocket` | server/file-relay.js:208-293 | the whole of registration equals the specification: validation, session limit, ticket, phase, role |
| `RelayServer.Server.OnHeader` | server/file-relay.js:63-81 | a chunk on an unregistered socket: wait, refuse, or register with what followed the line |
| `RelayServer.Server.OnPayload` | server/file-relay.js:177-180 | a chunk on the payload listener equals the specification |
| `RelayServer.Server.OnOverrun` | server/file-relay.js:130-131 | any byte after the payload fails the session's id |
| `RelayServer.Server.OnAck` | server/file-relay.js:132-149 | a chunk of acknowledgement: wait, complete on a matching one, destroy on any other |
| `RelayServer.Server.OnLateAck` | server/file-relay.js:132-149 | the same listener when its session has ended can only fail whatever session has the id now |
| `RelayServer.Server.Handle` | server/file-relay.js:295-328 | any event takes the server where the state machine goes, and the relay invariant holds afterwards |
| `RelayServer.Server.HandleAll` | server/file-relay.js:295-328 | any sequence of events takes the server where the machine's run ends, so every statement about runs from an empty relay is one about this server |
| `Framing.ChunkingIsIrrelevant` | server/file-relay.js:49-85 | two ways of cutting one stream give the same header, the same refusal and the same remainder |
| `Framing.FeedSeesWholeStream` | server/file-relay.js:63-81 | feeding chunks one by one settles as classifying the whole stream at once |
| `Framing.ClassifyExtends` | server/file-relay.js:63-72 | a settled verdict survives more bytes; only the remainder grows |
| `Framing.VerdictIff` | server/file-relay.js:63-72 | bytes are waited for exactly while they are within the limit and hold no newline, refused exactly when the first limit + 1 hold none, and otherwise split at the first newline |
| `Framing.HeaderReader.OnData` | server/file-relay.js:63-81 | one data event: the verdict on everything buffered, and whether the reader is settled |
| `Framing.ReadHeader` | server/file-relay.js:49-85 | run over any chunks, the reader's verdict and remainder are a function of the bytes: the first newline, at most at the limit |
| `Framing.SocketLineReader.TakeLine` | a2a-plugin/src/file-transfer.ts:158-164 | splits the buffer at its first newline, or leaves it |
| `Framing.SocketLineReader.TakeRemainder` | a2a-plugin/src/file-transfer.ts:152-156 | hands out the buffer and empties it |
| `Framing.SocketLineReader.ReadJson` | a2a-plugin/src/file-transfer.ts:110-150 | the line read is the first of the buffered bytes and everything after them, however cut; buffer and undelivered chunks are exactly the rest |
| `Framing.SocketLineReader.ReadJsonLines` | a2a-plugin/src/file-transfer.ts:105-172 | successive lines, what stays buffered and what is undelivered concatenate to the original stream |
| `Payload.PartFile.WriteAll` | a2a-plugin/src/file-transfer.ts:216-223 | with any partial writes the file grows by exactly the chunk, or by a proper prefix of it if a write made no progress |
| `Payload.PartFile.ReceivePayload` | a2a-plugin/src/file-transfer.ts:298-314 | completes with the first size bytes of the stream if a chunk boundary falls there, reports an overrun exactly when the stream is longer and none does, and reports an incomplete payload exactly when it is shorter |
| `Payload.ExactStreamEnds` | a2a-plugin/src/file-transfer.ts:307-314 | a stream of exactly the declared size completes under every chunking |
| `Payload.SendPayload` | a2a-plugin/src/file-transfer.ts:449-462 | succeeds if and only if the source read is exactly the offered size and hash; what was written to the socket is always a prefix of it within the size |
| `EndToEndProof.EndToEndCommit` | a2a-plugin/src/file-transfer.ts:320-368 | end-to-end commit over every interleaving of sender, relay, receiver, other clients and other programs, every chunking, every kind of volume (link, rename, or a copy in partial writes, others acting between them; taken names reported or not), and any stops of the receiving gateway with the recoveries that follow, before the sender's return and after: if the sending endpoint returned, the receiver's record is DATA_COMMITTED and the file at its path is byte for byte what was sent, of the offered size and hash (no assumption that the hash is injective) |
| `EndToEndProof.ReturnedMeansCommitted` | a2a-plugin/src/file-transfer.ts:467-480 | the same at one state that satisfies the system invariant: the acknowledgement the sender accepts can only come from a receiver that had committed |
| `EndToEndProof.RunSystemOk` | a2a-plugin/src/file-transfer.ts:230-400 | the system invariant is kept by every step of either endpoint, of the relay, of programs writing other files, and by stops of the receiving gateway |
| `EndToEndProof.AcknowledgedByReceiver` | a2a-plugin/src/file-transfer.ts:341-368 | a session that is done was acknowledged by the receiving endpoint itself, after its commit |
| `EndToEndProof.ReceivedIsForwarded` | a2a-plugin/src/file-transfer.ts:298-318 | a complete receive holds exactly what the relay forwarded |
| `EndToEndProof.SentIsForwarded` | a2a-plugin/src/file-transfer.ts:453-462 | what the relay forwarded is exactly what the sender sent |
| `EndToEndProof.CommittedRecordHolds` | a2a-plugin/src/file-transfer.ts:320-395 | over all those runs a DATA_COMMITTED record names a file of the offered size and hash, whether the receive or a recovery committed it |
| `EndpointDecisions.SenderReads` | a2a-plugin/src/file-transfer.ts:444-478 | from the bytes buffered and newly read the sender goes on exactly on the ready line of this transfer, returns exactly on an acknowledgement of this transfer, size and hash that names a file, waits for an incomplete line and fails on any other |
| `EndpointDecisions.ReceiverReads` | a2a-plugin/src/file-transfer.ts:275-291 | the receiver goes on exactly on its registration and then on metadata of this id, size and hash, recording each; any other complete line makes it give up |
| `EndpointDecisions.ReceiverFails` | a2a-plugin/src/file-transfer.ts:369-396 | giving up: with the file possibly in place the record stays COMMITTING with its path and nothing is deleted; before that it is CANCELED or FAILED_CONFIRMED, names no file, and the part is gone; the peer is told if the socket is up |
| `Survival.ReturnedSurvives` | a2a-plugin/src/file-transfer-store.ts:119-153 | once the sender has returned, whatever effects, stops and partial recoveries follow on a file system of inodes, the record stays committed and its path holds what was sent |
| `Delivery.EveryFileCanArrive` | a2a-plugin/src/file-transfer.ts:230-480 | the hypothesis of the commit theorem is met for every file: if the limits admit the offer and the first name is free, then for every content of the offered size and hash, on every kind of volume, some run ends with the sender returned and exactly that content sent |
| `Codec.EveryOfferCanSucceed` | a2a-plugin/src/file-transfer.ts:230-480 | nothing assumed is out of reach: for every valid offer, hash function and fitting content, every kind of volume and disk with the first name free, a run over that format ends with the sender returned and exactly that content sent |
| `Commit.CandidatesDistinct` | a2a-plugin/src/file-transfer-store.ts:192-195 | the candidate names base, base (1), ... never repeat |
| `Commit.CandidateForm` | a2a-plugin/src/file-transfer-store.ts:192-195 | the first candidate is the sanitised name itself; the k-th adds " (k)" before the extension, k without leading zeros |
| `Prelude.ValueOfDecimal` | a2a-plugin/src/file-transfer-store.ts:192-195 | numerals in candidate names read back as their number |
| `Commit.Disk.CommitPart` | a2a-plugin/src/file-transfer-store.ts:183-243 | the loop, with other programs creating files before each attempt and between a refused link, a refused rename and the copy: each candidate is recorded before its attempt, in order; it places the part at the chosen candidate, throws at an error no branch handles with exactly the stated files left, or gives up only when all names were taken |
| `Commit.CarefulNeverClobbers` | a2a-plugin/src/file-transfer-store.ts:183-243 | on a volume that reports taken names the file lands under the first free name with the part's bytes, the part is gone, every other path and every file present when the attempt was made is unchanged; a file is lost if and only if it took that name with other bytes after its link was refused, which cannot happen on a volume with hard links |
| `Commit.BrokenKeepsPart` | a2a-plugin/src/file-transfer-store.ts:203-225 | an error that no branch handles, also in the middle of a copy, leaves the part intact and every file that was there before |
| `Commit.SparesOthersIff` | a2a-plugin/src/file-transfer-store.ts:203-225 | on the fallback branches an attempt spares other files if and only if the name was free or already held the same bytes |
| `Commit.CarelessClobbers` | a2a-plugin/src/file-transfer-store.ts:203-209 | a concrete loss: a volume that answers EPERM for a taken name makes the code rename over another program's file |
| `Recovery.RecoveryTouchesOnlyParts` | a2a-plugin/src/file-transfer-store.ts:119-153 | whatever the records say and in whatever order, recovery rewrites no file and deletes nothing but parts, inside the receive directory, of listed records that were interrupted; a record it changes is settled afterwards |
| `Recovery.PartsAreGone` | a2a-plugin/src/file-transfer-store.ts:119-153 | and it does delete those: after the scan no part of a listed interrupted record inside the directory is left, and records that were not listed are as before |
| `Recovery.RecordDecides` | a2a-plugin/src/file-transfer-store.ts:119-181 | a settled record stays; one that was committing is committed exactly if its path holds, inside the directory, a file of the recorded size and hash that is the same inode as any part left; every other has failed and names no file |
| `Recovery.CountIsInterrupted` | a2a-plugin/src/file-transfer-store.ts:119-153 | the count recovery reports is the number of different listed records that were interrupted |
| `Recovery.RecoveredIndependently` | a2a-plugin/src/file-transfer-store.ts:119-153 | with separate parts every record is decided as if alone, so directory order is irrelevant |
| `Recovery.FileTransferStore.RecoverInterrupted` | a2a-plugin/src/file-transfer-store.ts:119-153 | the scan equals the specification on files and records and counts exactly the interrupted ones; unless a save rejects, the part of every listed interrupted record is gone; a save that rejects ends it, at exactly the stated files and records |
| `CrashSafety.HappenOk` | a2a-plugin/src/file-transfer.ts:320-395 | each effect of receiving, committing, failing, crashing and recovering keeps the crash invariant, on every kind of volume |
| `CrashSafety.CommittedHolds` | a2a-plugin/src/file-transfer-store.ts:119-181 | through any effects and any crashes, also inside recovery, on every kind of volume, a record says DATA_COMMITTED or COMPLETED only while its path holds bytes of the recorded size and hash |
| `CrashSafety.PlacedIsNeverLost` | a2a-plugin/src/file-transfer-store.ts:131-141 | once link or rename (or a copy whose part is gone) has placed the file, on every kind of volume, the record always names it, never says failed, and the next completed recovery commits it with its bytes intact |
| `CrashSafety.CommittedSurvives` | a2a-plugin/src/file-transfer-store.ts:119-130 | from any state with a committed record and no receive running, no stop, recovery, partial recovery or resolve changes its path or its file |
| `CrashSafety.EveryReceiveCanCommit` | a2a-plugin/src/file-transfer-store.ts:183-243 | on every volume and disk, every content of the offered size and hash has a run that ends with it under the first free candidate (the first one on a volume that does not report taken names), the record committed there and the part gone |
| `CrashSafety.FailureDecides` | a2a-plugin/src/file-transfer.ts:369-394 | at any moment until the file may be in place a receive can fail: the record then says failed or canceled and names no file, and the part is removed |
| `CrashSafety.RecoverAgrees` | a2a-plugin/src/file-transfer-store.ts:119-153 | uninterrupted, the effects of recovery decide and remove exactly as the recovery specification does, whether or not the removal works |
| `CrashSafety.RecoveryRemovesPart` | a2a-plugin/src/file-transfer-store.ts:131-150 | over all runs: stopped with an unsettled record that names the part, a completed recovery leaves no part behind |
| `CrashSafety.PlaceAgrees` | a2a-plugin/src/file-transfer-store.ts:198-239 | uninterrupted, the effects of committing at a candidate the code would take (link, then rename, then copy) leave exactly the file system the commit specification leaves, on all branches, a taken name overwritten included |
| `CrashSafety.InPlaceRecoversIff` | a2a-plugin/src/file-transfer-store.ts:166-181 | over all runs: stopped with the file in place and its part still there, recovery commits it if the volume can link or rename and gives it up otherwise |
| `CrashSafety.FinishedCopyIsGivenUp` | a2a-plugin/src/file-transfer-store.ts:166-181 | the failing run, on every volume without link and rename: a stop between the finished copy and the removal of its part ends FAILED_CONFIRMED with the whole file under its name |
| `CrashSafety.ForeignFilesSurvive` | a2a-plugin/src/file-transfer-store.ts:142-150 | a file that is not the transfer's and that neither a coming nor a pending fallback would reach is never changed or deleted by receiving, committing, failing or recovering |
| `CrashSafety.PriorFilesSurvive` | a2a-plugin/src/file-transfer-store.ts:142-150 | in particular every such file that was there before, under any interleaving with other programs |
| `CrashSafety.PriorFileSurvivesIff` | a2a-plugin/src/file-transfer-store.ts:203-225 | exactly which prior files are safe: if the offered bytes differ from it, a file survives all runs if and only if the volume reports taken names or the file is not the one a first rename would replace or a first copy would overwrite |
| `CrashSafety.LateFileSurvivesIff` | a2a-plugin/src/file-transfer-store.ts:198-225 | over all runs: a file that another program creates at any moment survives every continuation if and only if its name is not the one whose link was just refused (nor, on a volume that does not report taken names, the first candidate before its attempt); with hard links every one survives |
| `CrashSafety.LateFileIsLost` | a2a-plugin/src/file-transfer-store.ts:203-214 | the failing run, on every volume without hard links, also where taken names are reported: a file created under the free name between the refused link and its fallback is replaced or overwritten |
| `DurableWrites.WritesRunInOrder` | a2a-plugin/src/file-transfer-store.ts:98-112 | writes of one id never overlap and start only when every earlier call for the id is over, failed ones included |
| `DurableWrites.SnapshotsAreTakenAtTheCall` | a2a-plugin/src/file-transfer-store.ts:98-107 | the calls hold, in order, the records as they were when save was called |
| `DurableWrites.MapEndsEmpty` | a2a-plugin/src/file-transfer-store.ts:107-112 | when every call has returned the map of pending writes is empty |
| `DurableWrites.DiskHoldsLastSuccessIff` | a2a-plugin/src/file-transfer-store.ts:35-53 | once all writes are over, the disk holds the last successful snapshot if no later write of that id failed after its rename; if one did and the later snapshots are other ones, it does not |
| `DurableWrites.RejectedButVisible` | a2a-plugin/src/file-transfer-store.ts:47-53 | a concrete failing case: the directory sync fails, the promise rejects, and the new record is on disk |
| `DurableWrites.EffectsUseWork` | a2a-plugin/src/file-transfer-store.ts:98-112 | every effect of a pending write uses up a measure |
| `DurableWrites.NeverStuck` | a2a-plugin/src/file-transfer-store.ts:98-112 | until every call has returned some effect is possible, so with the measure all of them end |
| `DurableWrites.PendingWrites.constructor` | a2a-plugin/src/file-transfer-store.ts:79-85 | a store starts with no pending writes |
| `DurableWrites.PendingWrites.SaveRecord` | a2a-plugin/src/file-transfer-store.ts:98-107 | save up to its await, as specified |
| `DurableWrites.PendingWrites.BeginWrite` | a2a-plugin/src/file-transfer-store.ts:102-106 | a chained write begins if and only if the previous one is over |
| `DurableWrites.PendingWrites.AtomicWrite` | a2a-plugin/src/file-transfer-store.ts:35-53 | success needs both the rename and the directory sync; the record is visible from the rename on |
| `DurableWrites.PendingWrites.Finally` | a2a-plugin/src/file-transfer-store.ts:108-112 | only the latest call for an id removes its map entry |
| `ControlPlane.AdmissionAccounts` | a2a-plugin/index.ts:761-898 | over all interleavings of prepare, completion, failure and cancel: the byte account is the sum of sizes not yet released, both limits hold, and the active map is exactly the set of unreleased receives |
| `ControlPlane.ReleaseOk` | a2a-plugin/index.ts:883-886 | a release takes out its own entry and exactly its own bytes; the clamp never acts |
| `ControlPlane.PrepareDecides` | a2a-plugin/index.ts:790-823 | over all runs, stated on the receives themselves: a loaded prepare starts a receive if and only if its record is neither another file's nor committed, no unreleased receive has its id, fewer than maxCount are unreleased and their sizes with its own stay within maxBytes; each refusal is given exactly for the first of these that fails |
| `ControlPlane.StatusDecides` | a2a-plugin/index.ts:900-924 | over all runs the status is RECEIVING exactly while an unreleased receive has the id, and otherwise the stored record's, or not found |
| `ControlPlane.RestartDecides` | a2a-plugin/index.ts:760-775 | after a restart no receive is left and every slot and byte is free; each record is settled, committed exactly if it had been or was committing a file verified as its own |
| `ControlPlane.CanceledOnlyIfAsked` | a2a-plugin/index.ts:926-944 | over all runs a record becomes CANCELED only if a cancel for its id was received |
| `ControlPlane.IdleAdmitsIff` | a2a-plugin/index.ts:790-813 | when nothing is active, a loaded prepare is admitted if and only if its record neither belongs to another offer nor is committed |
| `ControlPlane.CommittedForGood` | a2a-plugin/index.ts:776-944 | in a run without a stale admission no prepare, receive, cancel, resolve, or restart with its recovery ever moves a record out of DATA_COMMITTED and COMPLETED |
| `ControlPlane.CommitLostIff` | a2a-plugin/index.ts:790-898 | over all runs, restarts with their recoveries included, a step loses a commit if and only if it is the first save of a receive whose admission, at any distance before, was decided on a record committed since it was loaded |
| `ControlPlane.RaceIsReachable` | a2a-plugin/index.ts:790-813 | a concrete run for every valid offer: a repeated prepare loads the record just before the first receive commits and is admitted after it ended |
| `ControlPlane.FileGateway.constructor` | a2a-plugin/index.ts:760-768 | the gateway starts with nothing active |
| `ControlPlane.FileGateway.OnPrepare` | a2a-plugin/index.ts:776-790 | validation and device check of a prepare, as specified |
| `ControlPlane.FileGateway.OnLoaded` | a2a-plugin/index.ts:791-875 | the decision on the loaded record: the four refusals in order, or the admission with its account |
| `ControlPlane.FileGateway.OnCompleted` | a2a-plugin/index.ts:883-886 | the account and map after a receive ended, as specified |
| `ControlPlane.FileGateway.OnStatus` | a2a-plugin/index.ts:900-924 | an active transfer answers RECEIVING, otherwise its record answers |
| `ControlPlane.FileGateway.OnCancel` | a2a-plugin/index.ts:926-944 | cancel marks an active receive and never changes a record |
| `Notify.NotifyOnlyAfterCommit` | a2a-plugin/index.ts:1439-1531 | with a fresh id, whatever is interleaved and whatever the payload transfer claims, a sent notification means the receiver's record is DATA_COMMITTED or COMPLETED, then and in every continuation |
| `Notify.EveryFileIsAnnounced` | a2a-plugin/index.ts:1420-1531 | and it is not met by silence: every valid offer has a run of both gateways that ends notified |
| `Notify.CommitIsAnnounced` | a2a-plugin/index.ts:1479-1508 | progress: once the receiver has committed and released the transfer, a sender that waits or has just sent the payload can go on to notify by its own steps alone |
| `Notify.AnswersDecide` | a2a-plugin/index.ts:1452-1508 | a check after a failed payload that does not confirm the commit abandons the transfer and has every unreleased receive of that id asked to stop; a wait goes on until an answer confirms, and only then notifies |
| `Notify.HappensOk` | a2a-plugin/index.ts:1439-1531 | each step of the sender, the receiving gateway or a status answer keeps the invariant behind it |
| `Notify.SendStreamFile` | a2a-plugin/index.ts:1429-1560 | the sending routine notifies if and only if the bytes may be there and a status answer before the deadline confirmed the commit, cancels exactly on an unconfirmed failure, and reports each outcome exactly |
| `Scheduler.BoundsAndOrder` | a2a-plugin/src/queueing-executor.ts:110-291 | in every run, repeated ids included: running tasks equal the slots taken, both bounds hold, tasks wait only while all slots are busy, each settles at most once, and they start in submission order |
| `Scheduler.ExactlyOnePlace` | a2a-plugin/src/queueing-executor.ts:110-291 | with distinct ids every submitted task is in exactly one of queue, running and settled |
| `Scheduler.LosesIff` | a2a-plugin/src/queueing-executor.ts:276-291 | exactly when a waiting task is lost: a finished task starts the head of the queue and this is the next one with the same id |
| `Scheduler.LostForever` | a2a-plugin/src/queueing-executor.ts:276-291 | a lost task never starts and its promise never settles |
| `Scheduler.RepeatedIdIsLost` | a2a-plugin/src/queueing-executor.ts:276-291 | a concrete run that loses the second of two waiting tasks with one id |
| `Scheduler.FinishStartsHead` | a2a-plugin/src/queueing-executor.ts:242-284 | a finished task settles and hands its slot to the head of the queue |
| `Scheduler.SubmissionDecides` | a2a-plugin/src/queueing-executor.ts:110-162 | a submission starts at once exactly if fewer than max tasks run, is rejected exactly if maxQueued wait, and otherwise waits behind all others |
| `Scheduler.CancelTakesOut` | a2a-plugin/src/queueing-executor.ts:164-188 | a cancel settles the earliest waiting task of that id as canceled and takes it out of the queue; every other task and the order of the rest are as before |
| `Scheduler.CancelOfNone` | a2a-plugin/src/queueing-executor.ts:164-188 | with no waiting task of that id a cancel changes nothing, whatever runs |
| `Scheduler.CanceledNeverStarts` | a2a-plugin/src/queueing-executor.ts:164-188 | a canceled task never starts and stays canceled, in every continuation |
| `Scheduler.SettledForGood` | a2a-plugin/src/queueing-executor.ts:110-291 | a settled task keeps its outcome in every continuation |
| `Scheduler.FinishDecides` | a2a-plugin/src/queueing-executor.ts:242-284 | the end of a task settles it as its outcome says and gives its slot to the head of the queue, or frees it; no other task changes |
| `Scheduler.QueueingExecutor.constructor` | a2a-plugin/src/queueing-executor.ts:100-108 | the limits are at least one slot and an empty queue allowed |
| `Scheduler.QueueingExecutor.Execute` | a2a-plugin/src/queueing-executor.ts:110-162 | start, reject or queue, as specified, keeping the invariant |
| `Scheduler.QueueingExecutor.CancelTask` | a2a-plugin/src/queueing-executor.ts:164-188 | the first waiting task of that id is canceled |
| `Scheduler.QueueingExecutor.RunEntry` | a2a-plugin/src/queueing-executor.ts:190-215 | the start of a task, as specified |
| `Scheduler.QueueingExecutor.OnFinished` | a2a-plugin/src/queueing-executor.ts:242-273 | the end of a task and the drain, as specified |
| `Scheduler.QueueingExecutor.DrainQueue` | a2a-plugin/src/queueing-executor.ts:276-284 | the loop equals the specified drain and restores the invariant |
| `PeerHealth.ThresholdsHold` | a2a-plugin/src/peer-health.ts:205-269 | in every reachable state closed means fewer failures than the soft threshold (the hard one when none is in force), desensitized lies between the two, open and recovering are at least the hard one |
| `PeerHealth.SingleProbeInRuns` | a2a-plugin/src/peer-health.ts:129-170 | without a rate constant at most one call is admitted between two recorded outcomes while open or recovering |
| `PeerHealth.SingleProbe` | a2a-plugin/src/peer-health.ts:129-170 | the same from any state of the invariant |
| `PeerHealth.ThrottlesExactly` | a2a-plugin/src/peer-health.ts:174-181 | exact throttling in both branches: from the failure that desensitized a peer, or from the check that made it recover gradually, with other peers' steps in between, any n checks at a share c admit exactly floor(n/10)*k + min(n mod 10, k), k being 10c rounded to the nearest (none at c <= 0, all at c >= 1) |
| `PeerHealth.RecoveryCompletes` | a2a-plugin/src/peer-health.ts:144-164 | a check of a gradually recovering peer at which the curve has reached 0.99 is admitted and closes the circuit with no failures; before that the state stays |
| `PeerHealth.OpenDecides` | a2a-plugin/src/peer-health.ts:129-142 | a check of an open circuit is admitted, and recovery begins, exactly if the reset time has passed since the last failure |
| `PeerHealth.FailureDecides` | a2a-plugin/src/peer-health.ts:205-269 | the circuit, health and counts after any failure, of a call or a probe, from the failure count and the thresholds |
| `PeerHealth.LegacyBehaviour` | a2a-plugin/src/peer-health.ts:44-56 | without the optional settings every answer is that of the three-state breaker: a refinement over all runs |
| `PeerHealth.PeersAreIndependent` | a2a-plugin/src/peer-health.ts:119-269 | over all runs a peer is answered, and ends, as if it were the only one and only its own steps had happened |
| `PeerHealth.PeerHealthManager.Available` | a2a-plugin/src/peer-health.ts:119-171 | the answer and the new state are the specified ones |
| `PeerHealth.PeerHealthManager.Capacity` | a2a-plugin/src/peer-health.ts:174-181 | the deterministic capacity check, as specified |
| `PeerHealth.PeerHealthManager.RecordSuccess` | a2a-plugin/src/peer-health.ts:184-202 | the specified reset |
| `PeerHealth.PeerHealthManager.RecordFailure` | a2a-plugin/src/peer-health.ts:205-269 | the specified transition |
| `Outbox.SendsAreBounded` | a2a-plugin/src/internal/outbox.ts:77-96 | in every run an entry is sent at most max(1, maxRetries) times and its retry count is the number of failed sends |
| `Outbox.NeverSentAgain` | a2a-plugin/src/internal/outbox.ts:136-161 | a sent or dead entry is never sent again, whatever follows |
| `Outbox.SentOrDeadForGood` | a2a-plugin/src/internal/outbox.ts:136-161 | in every run, from the moment an entry is sent or dead its number of sends is final and its status stays so |
| `Outbox.NoneIsLost` | a2a-plugin/src/internal/outbox.ts:117-161 | no message is lost: in every run that does not remove it an enqueued entry is still stored, or exactly one of its sends succeeded |
| `Outbox.ListedIsSent` | a2a-plugin/src/internal/outbox.ts:136-161 | conservation: each time a flush lists an entry it is sent exactly once, unless it still waits in that flush |
| `Outbox.EndsSentOrDead` | a2a-plugin/src/internal/outbox.ts:77-96 | once max(1, maxRetries) flushes have started no sooner than the maximum delay after its last failure and none is running, an entry is sent or dead, or was removed |
| `Outbox.PendingIdsAre` | a2a-plugin/src/internal/outbox.ts:51-61 | the flush list holds each due entry once and nothing else, in creation order |
| `Outbox.EnqueuedIsListed` | a2a-plugin/src/internal/outbox.ts:32-61 | a new entry is pending and due at once: the next tick that starts a flush lists it |
| `Outbox.SendNextDecides` | a2a-plugin/src/internal/outbox.ts:143-145 | between two sends exactly the first entry still listed is sent, once |
| `Outbox.SendEndDecides` | a2a-plugin/src/internal/outbox.ts:68-96 | in every run the end of a send leaves the entry sent, dead at the limit, or pending until base delay doubled once per failure plus jitter, at most the maximum, has passed; no other entry changes |
| `Outbox.FlushCompletes` | a2a-plugin/src/internal/outbox.ts:136-161 | a flush can always be run to its end whatever the outcomes of its sends: each listed entry is sent exactly once with its outcome, no other changes |
| `Outbox.MessageOutbox.EnqueueEntry` | a2a-plugin/src/internal/outbox.ts:32-48 | a new id with a pending entry due at once |
| `Outbox.MessageOutbox.GetPending` | a2a-plugin/src/internal/outbox.ts:51-61 | the collected and sorted list of due entries |
| `Outbox.MessageOutbox.OnTick` | a2a-plugin/src/internal/outbox.ts:138-142 | at most one flush runs at a time |
| `Outbox.MessageOutbox.SendNextEntry` | a2a-plugin/src/internal/outbox.ts:143-145 | the next listed entry is marked and sent, as specified |
| `Outbox.MessageOutbox.MarkSent` | a2a-plugin/src/internal/outbox.ts:68-71 | the specified outcome of a successful send |
| `Outbox.MessageOutbox.MarkFailed` | a2a-plugin/src/internal/outbox.ts:77-96 | the specified outcome of a failed send |
| `Outbox.MessageOutbox.RemoveEntry` | a2a-plugin/src/internal/outbox.ts:117-119 | only that entry goes |
| `Outbox.MessageOutbox.CleanupSent` | a2a-plugin/src/internal/outbox.ts:122-129 | the in-place walk deletes exactly the old sent entries |
| `TransportFallback.AdaptiveRanks` | a2a-plugin/src/transport-fallback.ts:233-249 | the adaptive order is a permutation along which scores fall, equal scores in priority order |
| `TransportFallback.AdaptiveIsStaticIff` | a2a-plugin/src/transport-fallback.ts:233-249 | it equals the static order if and only if scores never rise along the static order, for every list, duplicates and unranked transports included |
| `TransportFallback.UntestedIsStatic` | a2a-plugin/src/transport-fallback.ts:229-232 | with no recorded outcomes it is the static order |
| `TransportFallback.WindowIsLast` | a2a-plugin/src/transport-fallback.ts:158-169 | after any history each transport's list is exactly its last windowSize outcomes |
| `TransportFallback.ScoreBounds` | a2a-plugin/src/transport-fallback.ts:175-209 | scores lie in [0, 1], are 0 exactly after nothing but failures and 1 exactly when nothing in the window failed or took time |
| `TransportFallback.ScoresInRange` | a2a-plugin/src/transport-fallback.ts:175-209 | every transport's score after any history lies in [0, 1] |
| `TransportFallback.ScoreExactly` | a2a-plugin/src/transport-fallback.ts:175-209 | score * (normaliser + mean latency of the ok outcomes) equals their share times the normaliser |
| `TransportFallback.PriorityOrder` | a2a-plugin/src/transport-fallback.ts:30-59 | JSONRPC comes before HTTP+JSON before GRPC before anything else |
| `TransportFallback.OrderTransports` | a2a-plugin/src/transport-fallback.ts:40-59 | the bucket loop and sort produce the stable priority order, a permutation |
| `TransportFallback.BucketsAreOrder` | a2a-plugin/src/transport-fallback.ts:45-58 | sorting the ranked bucket and appending the rest is one stable sort of the whole |
| `StableSort.SortIsStable` | a2a-plugin/src/transport-fallback.ts:53-56 | the sort is ascending, a permutation, and keeps the order of equal keys |
| `StableSort.SortIsUnique` | a2a-plugin/src/transport-fallback.ts:53-56 | there is only one such result, so any stable sorting routine gives it |
| `TransportFallback.TransportStats.constructor` | a2a-plugin/src/transport-fallback.ts:152-155 | window and normaliser are at least one |
| `TransportFallback.TransportStats.Record` | a2a-plugin/src/transport-fallback.ts:158-169 | the transport's list is the last window of its history; other lists are untouched |
| `TransportFallback.TransportStats.ClearAll` | a2a-plugin/src/transport-fallback.ts:217-219 | all lists are dropped |
| `TtlStores.CheckRefinesHistory` | a2a-plugin/src/internal/idempotency.ts:42-87 | with a clock that never goes back a check answers as the latest store call for its key in the whole history dictates, wherever cleanups and checks are inserted |
| `TtlStores.LivesExactly` | a2a-plugin/src/internal/idempotency.ts:61-76 | an answer stored for so many seconds is given for exactly that long, the default time standing in for a missing one |
| `TtlStores.KeptIffLive` | a2a-plugin/src/internal/idempotency.ts:42-87 | a check forgets the entry of its key, and a cleanup any entry, exactly if it has expired; nothing else is forgotten or changed |
| `TtlStores.AddedIsKeptOrCounted` | a2a-plugin/src/internal/idempotency.ts:42-87 | conservation over all histories: entries kept plus entries counted as cleaned are the store calls that found no entry |
| `TtlStores.AnswersLatestLiveIff` | a2a-plugin/src/internal/idempotency.ts:42-58 | that is the latest unexpired call's answer if and only if it is not the case that the last call for the key has expired while an earlier one has not |
| `TtlStores.ShorterTtlHides` | a2a-plugin/src/internal/idempotency.ts:61-76 | a concrete case where an expired later call hides an unexpired earlier one |
| `TtlStores.IdempotencyStore.CheckKey` | a2a-plugin/src/internal/idempotency.ts:42-58 | the answer is the history's; an expired entry is dropped and counted |
| `TtlStores.IdempotencyStore.PutKey` | a2a-plugin/src/internal/idempotency.ts:61-76 | the entry replaces any earlier one |
| `TtlStores.IdempotencyStore.CleanupExpired` | a2a-plugin/src/internal/idempotency.ts:79-87 | the in-place walk drops exactly the expired entries and counts them |
| `TtlStores.AcceptedIffExpired` | a2a-plugin/src/internal/security.ts:115-127 | with any sweeps in between, a nonce is accepted if and only if every earlier acceptance of it has outlived its time to live |
| `TtlStores.RememberedIff` | a2a-plugin/src/internal/security.ts:115-142 | a sweep forgets exactly the expired nonces, and an add remembers its own |
| `TtlStores.NonceCache.AddNonce` | a2a-plugin/src/internal/security.ts:115-127 | the answer is that of the history |
| `TtlStores.NonceCache.Cleanup` | a2a-plugin/src/internal/security.ts:135-142 | the in-place walk drops exactly the expired nonces |
| `Ipv6.NormalizeKeepsMeaning` | a2a-plugin/src/file-security.ts:127-143 | for every hex-group text with at most one "::" the normalised text is a full text of the same 128-bit number |
| `Ipv6.NormalFormIsUnique` | a2a-plugin/src/file-security.ts:127-143 | two texts normalise to the same text if and only if they stand for the same address |
| `Ipv6.PrivateIpv6Iff` | a2a-plugin/src/file-security.ts:101-125 | private exactly on ::, ::1, fc00::/7, fe80::/10 and mapped addresses whose low 32 bits are in a private IPv4 range |
| `Ipv6.DottedIsPrivateIff` | a2a-plugin/src/file-security.ts:78-99 | a dotted text of four octets is private exactly when its 32-bit number lies in 0/8, 10/8, 127/8, 172.16/12, 192.168/16 or 169.254/16 |
| `Ipv6.NumeralsPrivateIff` | a2a-plugin/src/file-security.ts:78-99 | the same for any four numerals, leading zeros included; one above 255 makes the text private |
| `Ipv6.SegmentsOfText` | a2a-plugin/src/file-security.ts:131-141 | splitting a rendered text gives back its groups with the omitted zeros filled in |
| `Ipv6.TopSeven` | a2a-plugin/src/file-security.ts:112-113 | the first mask test is the numeric range of the first group |
| `Ipv6.TopTen` | a2a-plugin/src/file-security.ts:114-115 | the second mask test is the numeric range of the first group |

## Left out

- TLS, certificate pins, HTTP, Express, WebSocket and timers as such: their events (bytes, end, error, close, timeout, answers) are inputs.
- The relay's pause, resume and drain: forwarded chunks are ordered, but how long they wait is not modelled; nor are its logs and its shutdown.
- A relay socket that registers after it was ended, or whose first write fails: its session is destroyed in the same step instead of by the following error event.
- `RelayTheorems.StreamExactness`: Node's default of ending the writing side by itself after the peer has ended its own is not modelled; a sender that half-closes early may thus miss the acknowledgement it is said to be written.
- Isolation of relay sessions across reuse of an id: close and error handlers look the id up again, as the model does.
- JSON: lines are records of the fields that are read; a parser and encoder are assumed that parse back, put no newline into a line, and do not parse a proper suffix of a flat object (`Codec` has such a pair; it is not JSON itself). `Number(...)` on a JSON string is not modelled: sizes are integers.
- The relay's and gateways' regular expressions beyond the character classes of ids, tickets, devices and hashes; an offer's textual checks are one flag in the control plane.
- `safeTransferName` and `path.parse`: a commit target is given as directory, stem and extension.
- The sending endpoint's checks of file identity and times before and after sending; only size and hash are modelled.
- `EndToEndProof.EndToEndCommit`: assumes that no other client presents this transfer's ticket and that nobody else touches the part or the placed file. The endpoints there are step functions so that they interleave; their loops are proved as methods in `Payload`. Its disk is names to bytes, without inodes, so whether a part left behind is the placed file is an input of recovery there; what becomes of the files of others, and recovery effect by effect, are in `Commit` and `CrashSafety`. The relay's own restart is only its sockets' errors. No candidate name is the part's, which begins with a dot as sanitised names never do.
- `Commit.Disk.CommitPart`: a rename or copy that itself reports EEXIST, which sends the code to the next name, is not modelled; other programs create files but do not remove or rename any.
- `CrashSafety.CommittedHolds`: relies on other programs leaving alone the part and the file this transfer placed, is copying, or has committed, and follows one transfer. The stats and the hash of one verification in recovery are one step.
- `CrashSafety.PlacedIsNeverLost`: a directory sync is not a separate effect; every effect is durable when it happens.
- `DurableWrites.DiskHoldsLastSuccessIff`: covers writes made by `save`; resolving a transfer uri writes the record outside the chain. Snapshots are compared as values, so its second half asks that the later ones differ.
- The QUIC path: an external helper transfers the file, and the control plane only starts it. Its admission and release are the same code shape as the modelled one.
- `ControlPlane.AdmissionAccounts`: the store's writes are single steps that may be missing; a restart and the whole recovery that prepares wait for are one step, with the files it verifies as an input.
- `Notify.NotifyOnlyAfterCommit`: assumes the id the sender draws is not used by anyone else.
- `Notify.SendStreamFile`: the answers of the outside world are arguments; retries and health checks of the notification itself are one accepted-or-not flag.
- The scheduler's saturation delay (its constructor drops the setting), telemetry, event buses and the map of pending tasks, which is only written.
- `PeerHealth.ThrottlesExactly`: the recovery curve is any function of the time since recovery began, and a run at one share needs a curve that keeps it; skills, probe timers and logs are not modelled.
- The outbox's random ids (entries are numbered), dead-letter listing and stats; `startRelay` and `stopRelay` are arbitrary ticks.
- `TransportFallback.ScoreBounds`: exact real arithmetic instead of floating point. The classification of retryable errors is not modelled.
- `TtlStores.CheckRefinesHistory`: with a clock that can go back, an entry may be dropped early; that case is not stated. Fingerprints are given.
- `Ipv6.PrivateIpv6Iff`: texts with an embedded dotted part or a zone are not hex-group texts and are not covered; `net.isIP` and the dispatch in `isPrivateIp` are not modelled. `Number` is modelled on digit strings only, which are the only ones that reach it.
- Config parsing, agent cards, audit, discovery, routing, media types and size limits, uri rules: one-branch facts.
