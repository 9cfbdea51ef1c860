# RealtimeClipboard, verified

A Dafny model of RealtimeClipboard: an end-to-end encrypted clipboard with an in-memory
relay (Python) and a client (JavaScript) that share one wire protocol. Most of its
difficulty is in interleavings, so nearly every module here is a state machine whose
events are the resumptions, timers, socket callbacks and deliveries of the original,
and nearly every main result is about all runs of such a machine.

Encryption is ideal sealing under a room's key, SHA-256 is an injective digest, and
clocks appear as events or parameters. Files that work by changing variables are classes
with the same variables; each method is proved to leave exactly the state that its
step function gives, or states its result outright, and the theorems are about those functions.

| module | models |
|---|---|
| `Crc32`, `Chunks` | `src/files/chunker.js`: the checksum, the chunk plan, the reassembler |
| `Transfer`, `Delivery`, `TransferSides` | `src/files/transfer.js`: one attempt to move one file, both sides and the wires |
| `RelayTable`, `RelayAdmission`, `RelayProcesses` | `backend/main.py`: rooms, peers, address counts, eviction, retirement |
| `ClipLog`, `ClipDelivery` | `backend/main.py`: clips, fan-outs and the replay of one room; the SSE queue |
| `Guard`, `Clipboard`, `ClipboardDelivery`, `ClipboardCaptures` | `src/clipboard/guard.js`, `src/clipboard/capture.js`: one device's clipboard |
| `EchoRoom` | a room of such devices: no echo |
| `Session`, `SessionDelivery`, `ClientSessions` | `src/main.js`: keys, rooms, sealing and sending |
| `Connection`, `RelayConnections` | `src/transport/relay.js`: attempts, timers, transports |
| `Outbox`, `SseOutboxes` | `src/transport/sse.js`: the upstream outbox |
| `ReplicaBus`, `SharedBackends` | `backend/shared.py`: several replicas and the bus between them |
| `LockProof`, `Verifiers` | `src/core/verify.js`: proving a PIN |
| `RateBuckets` | `backend/main.py`: rate limits |
| `FrameBudget` | `src/core/config.js`, `src/files/chunker.js`: derived size limits |
| `Options` | a value that may be missing |

## Where a promise needs a condition

Eight promises do not hold as stated, and the code is kept as it is:

- Gap-free clip log. A peer whose write failed stays in the room until the last write of
  that fan-out has ended, and receives later clips meanwhile (`ClipLog.GapBeforeSettling`).
  A peer whose welcome failed is not dropped at all. For everybody else the promise holds
  (`ClipLog.GapFree`), and the stream is complete if and only if no clip to that peer was
  lost (`ClipLog.GapFreeIffNothingLost`).
- One session per frame. `openSession` moves the generation but leaves the old key and
  channel until the new key is derived. The dialogs opened by `onEvicted`, `startSession`
  and the key-collision handler can reach it while another session is live. Then a frame
  crosses (`Session.OldKeyCrosses`, `Session.NewKeyCrosses`); if every room is left first,
  none does (`Session.NothingCrosses`).
- Clipboard order. Overlapping operating system writes may land in either order
  (`Clipboard.OverlappingMayFall`); a write that nothing overlapped always raises the
  clipboard's arrival number (`Clipboard.AloneRises`).
- The newest clip supersedes. When the writes of two held clips are both refused, the older
  one's first, the older one takes the slot and the newer one is lost
  (`ClipboardDelivery.OlderTakesTheSlot`). A refused clip goes back exactly if the slot is
  empty (`ClipboardDelivery.ReturnsIfSlotEmpty`); nothing else loses the newest clip but the
  user, the session, the mode or a refused direct write (`ClipboardDelivery.NewestIsKept`).
- One exit. A requester that has ended stays as it ended if and only if no digest was being
  computed (`Delivery.EndIsFinalIffChecked`). A receive cancelled meanwhile is stored all
  the same (`Delivery.CancelledIsSaved`).
- No echo. A read that had sampled before the copy and answers after the copied text was
  captured sends the old text (`EchoRoom.OvertakenPollEchoes`), and apart from the two
  conditions on the operating system this is the only way to a second frame
  (`EchoRoom.EchoOnlyIfLate`). The two conditions are needed as well
  (`EchoRoom.LateAnswerEchoes`, `EchoRoom.OverlappingWritesEcho`).
- Whole on file-done. The holder sends file-done once the transport took every chunk, but
  the fallback transport may still drop what it took. Then chunks are missing
  (`Transfer.LostChunkEndsIt`), or the plan is (`Transfer.LostPlanEndsIt`). Nothing else
  makes them missing (`Transfer.AttemptIsSafe`, `Transfer.LostOnlyByLosing`): at file-done
  the file is whole if and only if the plan came and no chunk was lost
  (`Transfer.FileDoneDecides`).
- One probe, n - 1 answers. The fallback transport may post a question twice, and then it
  is answered twice (`LockProof.TwoCopiesTwoAnswers`); each post draws n - 1 answers at
  most (`LockProof.OneExchange`).

Where code and comments differ the model follows the code. `defuse` unifies line ends
before stripping although the carriage return is in the stripped class
(`Guard.UnifyIsRedundant`). The comment in `src/files/chunker.js` calls the relay chunk
the largest slice whose frame still fits; the derivation leaves room to spare, so the
model proves that it fits and not that it is the largest.

## Model

| member | source | states |
|---|---|---|
| `Crc32.Checksummer.BuildTable` | src/files/chunker.js:214-219 | The table built in place holds, for every byte, eight steps of the reflected CRC-32 register. |
| `Crc32.TableStep` | src/files/chunker.js:222 | One table look-up is eight bit steps: folding a byte through the table equals feeding its bits one at a time. |
| `Crc32.Checksummer.Crc32` | src/files/chunker.js:211-224 | For every byte string the table-driven checksum is the bit-by-bit CRC-32 of section 8 of RFC 1952, whether the table existed or was built on the way. |
| `Crc32.FeedWindow` | src/files/chunker.js:222 | Feeding up to four bytes equals one exclusive-or with the bytes packed little-endian and that many plain shifts; the fact burst detection rests on. |
| `Crc32.BurstDetected` | src/files/chunker.js:149-151 | Two strings of one length that differ only inside some four consecutive bytes never share a checksum, whatever surrounds them. |
| `Crc32.OneByteDamageDetected` | src/files/chunker.js:149-151 | Two chunks of equal length that differ in exactly one byte never share a checksum. |
| `Crc32.PolynomialIsTheStandards` | src/files/chunker.js:213-219 | The constant folded in is the generator polynomial of section 8 of RFC 1952, coefficient by coefficient, reflected. |
| `Chunks.InPlan` | src/files/chunker.js:51-61 | A number is in the plan exactly when its chunk starts inside the file, and exactly when its length is positive. |
| `Chunks.Partition` | src/files/chunker.js:51-61 | For every size and chunk length the chunks of the plan, end to end, are the file. |
| `Chunks.HomeChunk` | src/files/chunker.js:57-61 | A byte lies in chunk k exactly when k is its offset divided by the chunk length: chunks do not overlap. |
| `Chunks.ByteInOneChunk` | src/files/chunker.js:74-90 | Every byte of the file is found in its own chunk of the plan at its own place. |
| `Chunks.CutAll` | src/files/chunker.js:74-81 | The chunk loop yields every chunk of the plan in order, each with its own checksum. |
| `Chunks.DamageRefused` | src/files/chunker.js:138-151 | A chunk whose number or length does not fit the plan, or hurt inside four bytes, is refused in any state and changes nothing. |
| `Chunks.GenuineStep` | src/files/chunker.js:138-160 | A chunk of this file is stored if it is new and a duplicate otherwise; either way the written part of the buffer is the file and the rest untouched. |
| `Chunks.RunMatches` | src/files/chunker.js:138-160 | After any list of chunks, genuine or detectably damaged, in any order and repeated, exactly the chunks that arrived whole are marked and their regions match the file. |
| `Chunks.CompleteIsWhole` | src/files/chunker.js:121-158 | A matching transfer is complete exactly when every chunk is marked, and then the buffer is the file and the byte count its size. |
| `Chunks.ReassemblyCorrect` | src/files/chunker.js:106-195 | From an empty reassembler and any such list: complete exactly when every chunk arrived whole at least once; then finish() returns the file, until then only an error. |
| `Chunks.FinishIsTheFile` | src/files/chunker.js:184-195 | Whatever finish() returns is the whole file, even for a declared total that does not fit the size and without a digest. |
| `Chunks.DigestDecides` | src/files/chunker.js:190-193 | With a digest no assumption about the chunks is needed: what finish() returns has that digest, so it is the file. |
| `Chunks.Reassembler.constructor` | src/files/chunker.js:106-119 | A fresh buffer of the declared size, no chunk marked, both counts zero. |
| `Chunks.Reassembler.Accept` | src/files/chunker.js:138-160 | The outcome and the whole new state, buffer included, for every chunk: out of plan, wrong length, bad checksum, duplicate, out of the buffer, stored, or ignored after an abort. |
| `Chunks.Reassembler.Missing` | src/files/chunker.js:167-171 | Exactly the chunk numbers still wanted, ascending; after an abort all of them. |
| `Chunks.Reassembler.Finish` | src/files/chunker.js:184-195 | The file or the first reason not to have it, in the order the code asks. |
| `Chunks.Reassembler.Abort` | src/files/chunker.js:198-202 | The buffer and the marks are dropped and nothing else changes. |
| `Transfer.AttemptIsSafe` | src/files/transfer.js:397-520 | Over every interleaving of timers, channel callbacks, duplicated or lost relay frames and resumptions of one attempt: a stored file is the source byte for byte, a confirmed send means the other side stored it, and an honest attempt is never lost to a refused chunk or a wrong digest. Beside a drop, a stall, a timeout or the other side giving up it takes a lost relay frame: the acceptance for a missing header or an end with nothing received, a chunk for missing chunks. |
| `Transfer.LostOnlyByLosing` | src/files/transfer.js:871-892 | In a run that loses no relay frame, an attempt is lost only to a drop, a stall, a timeout or the other side giving up. |
| `Transfer.FileDoneDecides` | src/files/transfer.js:871-880 | What file-done does to a receiver still collecting is decided by the losses alone: without a plan the acceptance was lost and nothing came; with one, the file is whole if and only if no relay chunk was lost, and chunks are missing otherwise. |
| `Transfer.LostChunkEndsIt` | src/transport/sse.js:149-166 | For every file of one chunk there is a run, with every send accepted by the transport, in which the chunk is lost and file-done ends the attempt with chunks missing. |
| `Transfer.LostPlanEndsIt` | src/files/transfer.js:882-884 | For every file there is a run in which the acceptance is lost: the first chunk finds no header, or the end of an empty file finds that nothing came. |
| `Transfer.OnePath` | src/files/transfer.js:397-466 | The holder's path, once chosen, is never changed; data-channel bytes exist only on the direct path and relay chunks only on the relay path. |
| `Transfer.DeliveredIsVerified` | src/files/transfer.js:836-892 | A receiver that heard any ending, or every relay chunk, or every channel chunk and the end mark, is past collecting, whatever else was lost. |
| `Transfer.RunInv` | src/files/transfer.js:397-521 | The invariant of both machines and the wires holds after any list of events. |
| `Transfer.SenderStepInv` | src/files/transfer.js:397-521 | Every holder event keeps it: what is in the relay log and on the channel is the plan, header or acceptance first, chunks in order, an ending. |
| `Transfer.HearChunk` | src/files/transfer.js:860-869 | A relay chunk, first time or again, lands in a reassembler built from the relay plan it was cut with and is never refused; without any plan it ends the attempt, and then the acceptance was lost. |
| `Transfer.TakeData` | src/files/transfer.js:851-856 | A data-channel chunk lands in a reassembler built from the channel header's plan, and is never refused. |
| `Transfer.HearDone` | src/files/transfer.js:871-880 | file-done keeps the invariant whatever was lost before it: it completes a whole file, and any attempt it ends is excused by a lost relay frame. |
| `Transfer.LoseRelayInv` | src/transport/sse.js:149-166 | Losing any relay frame, setup, chunk or ending, keeps the invariant of both machines. |
| `Transfer.TakeFin` | src/files/transfer.js:847 | The channel's end marker after all the data chunks completes the transfer. |
| `Transfer.TakeHeader` | src/files/transfer.js:839-846 | A channel header replaces the relay plan by the direct one before any chunk was counted, and completes an empty file. |
| `Transfer.HearBackInv` | src/files/transfer.js:678-683 | The receiver's word reaches the holder only if the receiver said it; repeated or late, it changes nothing that was decided. |
| `Delivery.HeardIsConfirmed` | src/files/transfer.js:659-683 | In every run, once the receiver's file-ok has reached a holder that is not done, however early and whatever follows, the holder never says 'not confirmed': a wait ends as confirmed at its next settling and its timeout does nothing. |
| `Delivery.SavedIsTold` | src/files/transfer.js:894-919 | In every run a stored file has been reported to the holder. |
| `Delivery.SavedIsConfirmed` | src/files/transfer.js:894-919 | End to end: the receiver has stored the file, its word reaches the holder in time and the holder ends without failing or being cancelled; then it says 'sent', and the stored file is the source. |
| `Delivery.UnhurtIsDelivered` | src/files/transfer.js:397-919 | In every run that loses no frame and in which no send is refused, no channel closes under a file, nobody cancels and no timer gives up: when neither side has anything left to do, the file is stored and the holder says 'sent', whichever path won and whatever was repeated. |
| `Delivery.UnhurtCanEnd` | src/files/transfer.js:397-919 | And every such run can be carried on to that end: each step that carries the attempt on leaves less to do. |
| `Delivery.EitherPathDelivers` | src/files/transfer.js:397-521 | For every file there is such a run over the channel and one over the relay. |
| `Delivery.RaceEnds` | src/files/transfer.js:397-466 | In every run a race that is on has a timer, and the timer or a failure ends it on the relay with WebRTC let go. |
| `Delivery.RequesterRaceEnds` | src/files/transfer.js:793-798 | The requester's own timer runs from its answer on and lets the channel go exactly while nothing is decided, nothing has come and no open channel is there. |
| `Delivery.RelayIsAlone` | src/files/transfer.js:728-731 | In every run a requester that is on the relay has let WebRTC go, and no offer brings it back. |
| `Delivery.GivingUpIsSaid` | src/files/transfer.js:935-951 | A holder that gives up, for whichever reason, says so to its user and to the other side and lets the channel go. |
| `Delivery.OtherwiseItGoesOn` | src/files/transfer.js:434-437 | Nothing else makes it give up: a close after everything is queued, a stall or a file gone after everything is sent, change nothing. |
| `Delivery.EndMarkFollows` | src/files/transfer.js:500-507 | After the last chunk the holder marks everything as queued and sends the end mark if the channel is still there. |
| `Delivery.DoneIsSilent` | src/files/transfer.js:973-985 | A holder that is done sends nothing more on either path. |
| `Delivery.WithdrawingIsSaid` | src/files/transfer.js:222-231 | So does a requester. |
| `Delivery.OtherwiseItWaits` | src/files/transfer.js:1148-1154 | Nothing else makes it: silence, a dropped channel or a deadline after everything came change nothing. |
| `Delivery.FinDecides` | src/files/transfer.js:847-850 | The channel's end mark has what came checked, complete or not; if nothing came the attempt ends and the holder is told. |
| `Delivery.HearingItEnds` | src/files/transfer.js:925-951 | Hearing that the other side has given up ends the attempt on either side. |
| `Delivery.PlanDecides` | src/files/transfer.js:689-726 | A plan is taken exactly if it adds up, is at most 5 MB and is of the announced file; otherwise the attempt ends. |
| `Delivery.DamageEndsIt` | src/files/transfer.js:860-869 | A chunk that does not fit the plan or is hurt inside four bytes ends the attempt; over the channel the holder is told. |
| `Delivery.HolderEndIsFinal` | src/files/transfer.js:973-985 | What a holder has come to stays, through any run. |
| `Delivery.EndIsFinalIffChecked` | src/files/transfer.js:894-919 | What an ended requester has come to stays, through every run, if and only if no digest was still being computed; if one was, its end stores the file. |
| `Delivery.CancelledIsSaved` | src/files/transfer.js:222-231 | For every file and on either path there is a run in which the requester cancels, says so, and the file is stored all the same. |
| `Delivery.NextWell` | src/files/transfer.js:397-919 | Every step that does not hurt keeps an attempt well: the channel open while the chosen path needs it, nobody done before everything came, every report a true one. |
| `TransferSides.HolderTransfer.StartIceRace` | src/files/transfer.js:397-455 | The race starts once; without a peer connection the holder goes to the relay at once. |
| `TransferSides.HolderTransfer.FallBack` | src/files/transfer.js:458-466 | Falling back happens only while undecided, drops WebRTC whole, and chooses the relay. |
| `TransferSides.HolderTransfer.OnChannelOpen` | src/files/transfer.js:426-432 | The first open channel of an undecided attempt chooses the direct path and sends the header of the direct plan. |
| `TransferSides.HolderTransfer.ChannelTurn` | src/files/transfer.js:482-521 | One turn of the channel loop: the next chunk in order, the end marker, or an abort when the channel is gone. |
| `TransferSides.HolderTransfer.RelayTurn` | src/files/transfer.js:595-620 | One turn of the relay loop: the next relay chunk in order, or file-done and the wait for the receipt, or an abort. |
| `TransferSides.HolderTransfer.OnReceiptSettled` | src/files/transfer.js:659-676 | The wait settles once; 'confirmed' is reported only on the receiver's own word. |
| `TransferSides.HolderTransfer.OnBackFrame` | src/files/transfer.js:678-683 | file-ok latches the confirmation; an error or a cancel ends the attempt. |
| `TransferSides.RequesterTransfer.OnAccept` | src/files/transfer.js:689-726 | A plan that does not add up, is over the size limit or is not the announced file is refused before anything is allocated. |
| `TransferSides.RequesterTransfer.OnOffer` | src/files/transfer.js:728-731 | An offer is taken only if there is no peer connection yet and the relay has not won. |
| `TransferSides.RequesterTransfer.OnChunk` | src/files/transfer.js:860-869 | The first relay chunk ends WebRTC on this side and chooses the relay. |
| `TransferSides.RequesterTransfer.Take` | src/files/transfer.js:882-892 | A chunk is ignored when done, an error without a plan, and completes the transfer when it is the last. |
| `TransferSides.RequesterTransfer.OnDone` | src/files/transfer.js:871-880 | file-done builds the reassembler of an empty file, completes a complete one, and aborts otherwise. |
| `TransferSides.RequesterTransfer.OnChannelHeader` | src/files/transfer.js:836-846 | A checked header replaces the plan and the reassembler. |
| `TransferSides.RequesterTransfer.OnDigest` | src/files/transfer.js:894-919 | The receipt is sent and the file stored only when the digest matched; otherwise the holder is told. |
| `TransferSides.RequesterTransfer.OnIceTimeout` | src/files/transfer.js:793-798 | The receiver's own timer gives up WebRTC only while undecided with nothing received and no open channel. |
| `RelayTable.CountsAreTrue` | backend/main.py:634-658 | After any run of joins, hellos, departures, failed writes, evictions and retirements, every address's count is the true number of its peers, no entry is zero, and no address is over its cap. |
| `RelayTable.RoomsAreFine` | backend/main.py:1210-1334 | After any run, every room: the room and peer caps hold, peer ids are unique, all its peers presented one token, and if it is empty a timer is running for it or a departure handler is still due, so none is stranded. |
| `RelayTable.LeavesOnlyEmpty` | backend/main.py:1091-1103 | A room leaves the table, or makes way for another of its name, only when its timer finds it empty or its lifetime is over. |
| `RelayTable.NobodyLeft` | backend/main.py:634-658 | With no connection left, no address is counted, every room is empty and every room has a timer. |
| `RelayTable.Drains` | backend/main.py:1091-1103 | And once those timers have run, in any order, no room and no timer is left. |
| `RelayTable.RetireReleasesItsOwn` | backend/main.py:1126-1148 | Retiring a room gives back exactly its own peers' places and no other room's. |
| `RelayTable.JoinInv` | backend/main.py:1210-1334 | Every join, admitted or refused at any of its checks, over a fresh, an existing or an expired room, keeps the invariant. |
| `RelayTable.AdoptInv` | backend/main.py:1057-1088 | hello keeps it: an id held by someone in the room is never taken twice. |
| `RelayTable.WriteFailedInv` | backend/main.py:847-849 | A dropped peer releases its own place only. |
| `RelayTable.CloseInv` | backend/main.py:1345-1348 | The synchronous half of a departure keeps it, also after the peer was dropped already. |
| `RelayTable.AfterDepartureInv` | backend/main.py:1337-1342 | The other half keeps it, also when the room it joined is no longer the one in the table. |
| `RelayTable.TimerFiresInv` | backend/main.py:1091-1103 | A timer, old or new, takes only an empty room. |
| `RelayAdmission.JoinAnswers` | backend/main.py:1210-1334 | For every reachable state and every arrival the answer is the one the tables call for: no org token, the true number of connections from its address at the cap, no room left, the room full, somebody there with another token; and otherwise it is admitted and told how many were there. |
| `RelayAdmission.JoinLeaves` | backend/main.py:1210-1334 | Whoever is admitted is one more peer of that room, under its own token; whoever is refused is in no room; no other room is touched. |
| `RelayAdmission.TokensAgree` | backend/main.py:1186-1207 | An occupied room admits exactly the token its peers presented. |
| `RelayAdmission.LockedStaysLocked` | backend/main.py:1186-1207 | As long as a locked room is there, even empty, nobody with another token is admitted, whatever else happens. |
| `RelayAdmission.AdmittedStays` | backend/main.py:1210-1350 | After any run an arrival that gives no reason for a refusal is admitted and stays in that very room, whoever comes and goes, until its own connection goes or its room is found expired. |
| `RelayAdmission.GoneIsOut` | backend/main.py:1345-1348 | A connection that is gone, or cannot be written to, is in no room any more, and everybody else is where it was. |
| `RelayAdmission.DepartureEnds` | backend/main.py:1337-1350 | When a departure has been handled the handler is gone, and a room found empty has a running timer of its own. |
| `RelayAdmission.AdmissionStopsTheClock` | backend/main.py:1210-1334 | An admission stops the timer set when the room was last found empty. |
| `RelayAdmission.ExpiredGoes` | backend/main.py:1126-1148 | A room found past its lifetime is taken out, and no other. |
| `RelayAdmission.HelloDecides` | backend/main.py:1057-1088 | A device gets the id it asks for exactly if no other peer of its room has it, and its nickname always; both answers say exactly what happened; nobody else changes. |
| `RelayProcesses.RelayProcess.DropPeer` | backend/main.py:634-658 | The one decrement: the peer goes and its address's entry falls by one or disappears. |
| `RelayProcesses.RelayProcess.Retire` | backend/main.py:1126-1148 | Dropping the peers one at a time leaves the tables that releasing them all at once would. |
| `RelayProcesses.RelayProcess.Join` | backend/main.py:1210-1334 | The verdict of every check in order, and the whole new tables for each. |
| `RelayProcesses.RelayProcess.AdoptIdentity` | backend/main.py:1057-1088 | The id is taken exactly when nobody in the room has it; the two answers say what changed and what was refused. |
| `RelayProcesses.RelayProcess.AfterDeparture` | backend/main.py:1337-1342 | An empty room gets a timer, overwriting the task of an earlier one, which keeps running. |
| `RelayProcesses.RelayProcess.EvictLater` | backend/main.py:1091-1103 | The room of that name goes if it is there and empty. |
| `ClipLog.GapFree` | backend/main.py:813-849 | In any interleaving: a peer in the room that no unsettled fan-out has failed to write to, and whose welcome did not fail, has received a beginning of its replay followed by every later clip but its own, and the rest is on its way in order; with nothing on its way it has all of it. |
| `ClipLog.SettledIsGapFree` | backend/main.py:847-849 | Once every fan-out has settled, whoever is still in the room and was welcomed has the replay and every later clip but its own. |
| `ClipLog.GapFreeIffNothingLost` | backend/main.py:838-849 | For anyone in the room the stream is complete if and only if no clip to it was lost; and whoever lost one is about to be dropped, or never got its welcome. |
| `ClipLog.LaterMeans` | backend/main.py:1401-1414 | 'Every later clip but its own': each exactly once, in seq order, and nothing else. |
| `ClipDelivery.JoinedIsTold` | backend/main.py:813-849 | Whoever joined is still in the room unless it left, a write to it failed or the room was retired, whatever befell the others; and it has been told, or is about to be, the replay and every clip anyone else said since, in order and once each. |
| `ClipDelivery.CatchesUp` | backend/main.py:813-849 | What is on its way to such a peer can be brought there by its own writes and reads alone, and then it has all of it. |
| `ClipDelivery.LogIsWhatWasSaid` | backend/main.py:1400-1414 | Every clip of a run is accepted once, in the order of arrival. |
| `ClipDelivery.FailedIsDropped` | backend/main.py:838-849 | A peer a write failed for is out of the room once the last write of that fan-out has ended. |
| `ClipDelivery.LeavingIsForGood` | backend/main.py:1345-1350 | Whoever left, or was in a room when it was retired, does not come back and is told nothing that was not on its way. |
| `ClipLog.GapBeforeSettling` | backend/main.py:838-849 | The condition is needed: a run of four welcomed WebSocket devices, three of which say one clip each, in which two writes to the fourth pass their deadline together, one holding the socket and one waiting for it; that peer, still in the room because other peers' writes are out, has received clips 1 and 3 without clip 2. |
| `ClipLog.NextInv` | backend/main.py:813-849 | Every join, clip, announcement, forward, write, failure, departure and retirement keeps the invariant. |
| `ClipLog.FailedTold` | backend/main.py:838-845 | A lost clip is always booked to a fan-out that will drop the peer, or to a failed welcome. |
| `ClipLog.CutOffTold` | backend/main.py:838-845 | A write cut off by its deadline may have been taken by the socket: its frame arrives, and its peer is dropped all the same. |
| `ClipLog.SseConnection.SendText` | backend/main.py:538-543 | A full queue refuses and is unchanged; otherwise the frame is last in line. |
| `ClipLog.SseConnection.End` | backend/main.py:545-563 | The end marker always lands, at the cost of at most the oldest frame. |
| `Guard.DefusedIsClean` | src/clipboard/guard.js:35-39 | Whatever a peer sent, the result holds no invisible character and does not end in a newline. |
| `Guard.DefuseKeepsCleanText` | src/clipboard/guard.js:35-39 | Defusing leaves a text alone if and only if it was clean already. |
| `Guard.DefuseIsIdempotent` | src/clipboard/guard.js:35-39 | Defusing twice is defusing once. |
| `Guard.DefuseOnlyRemoves` | src/clipboard/guard.js:35-39 | Exactly the invisible characters and then the trailing newlines are taken away. |
| `Guard.AlteredMeans` | src/clipboard/guard.js:127-136 | A clip is reported as altered exactly when something invisible was taken out of it, and not for a newline at its end. |
| `Guard.OrderMatters` | src/clipboard/guard.js:27-39 | Newlines first and invisibles second is not the same: one text that stays dangerous that way. |
| `Guard.UnifyIsRedundant` | src/core/text.js:35-48 | A carriage return is itself in the invisible class, so unifying line ends first changes nothing. |
| `Guard.LooksExecutable` | src/clipboard/guard.js:101-125 | The scan answers exactly: some line of the trimmed text is too long to check or matches a pattern. |
| `Guard.LinesAcross` | src/clipboard/guard.js:116 | Splitting at newlines: what comes before a newline cannot change the lines after it. |
| `Guard.ScanSees` | src/clipboard/guard.js:101-125 | Wherever a line stands in a clip, the clip is flagged if that line is suspicious as the scan sees it, which is without the blanks at an end beyond which nothing is visible. |
| `Guard.PaddingHidesNothing` | src/clipboard/guard.js:106-115 | No padding hides a suspicious line without blanks at its ends: blank or visible, however much, in front of it, behind it, on both sides or on neither. |
| `Clipboard.NeverBackwards` | src/clipboard/capture.js:352-370 | In every run: a pending clip is newer than anything known to have landed and no newer than the last arrival, and every write that ever started was newer than anything known to have landed by then. |
| `Clipboard.AloneRises` | src/clipboard/capture.js:352-370 | A write that no other write overlapped lands above everything that landed before it. |
| `Clipboard.OverlappingMayFall` | src/clipboard/capture.js:352-370 | The condition is needed: any two texts put one after the other may land the other way round and leave the older one on the clipboard. |
| `Clipboard.PeerTextIsSafe` | src/clipboard/capture.js:299-321 | In every run, peer text that is written is the defused text, clean, and if the guard flags it the write was started by an explicit confirm; refused writes put back in the slot keep their flag. |
| `Clipboard.ForgottenStaysForgotten` | src/clipboard/capture.js:243-247 | Nothing that had arrived when the session was forgotten is started afterwards, not even a clip whose write was in flight and then failed. |
| `ClipboardDelivery.FreshCopyIsCaptured` | src/clipboard/capture.js:173-291 | Outside the window a fresh local copy is captured by each tier: a paste, a native report, a read. |
| `ClipboardDelivery.CopyAfterWindow` | src/clipboard/capture.js:284-291 | A copy made inside the window is captured after it. |
| `ClipboardDelivery.FreshCopyIsLeftAlone` | src/clipboard/capture.js:299-321 | No clip that arrives while a local copy is fresh is written over it. |
| `ClipboardDelivery.AgedCopyGivesWay` | src/clipboard/capture.js:299-321 | Once it has aged, an unflagged clip that finds the window focused is written at once. |
| `ClipboardDelivery.StepReadsApart` | src/clipboard/capture.js:173-199 | No read takes another's place, and what one has sampled is what it answers with. |
| `ClipboardDelivery.UnboundIsLeftAlone` | src/clipboard/capture.js:155-164 | In a mode that does not bind the clipboard no write starts and nothing is captured but what is pasted, in any run, and no read is asked for. |
| `ClipboardDelivery.RefusalTakesBackItsClaim` | src/clipboard/capture.js:352-359 | A refused write takes back its own claim to be what was last sent, and nobody else's. |
| `ClipboardDelivery.TopRises` | src/clipboard/capture.js:352-370 | The highest arrival that ever landed only rises, and every landing counts. |
| `ClipboardDelivery.ArrivalIsTaken` | src/clipboard/capture.js:299-321 | A peer's clip with anything visible in it is written at once, or is held: if flagged, without focus, or after a fresh local copy, and then with a timer if only the local copy holds it. |
| `ClipboardDelivery.OwnTextIsTaken` | src/clipboard/capture.js:381-396 | The user's own text is written at once, or held for the next focus. |
| `ClipboardDelivery.ReleasedIsWritten` | src/clipboard/capture.js:427-471 | In every reachable state a click on any held clip, and focus, the tick or the timer on an unflagged one, start a write of exactly that text, which is what the clipboard holds when it lands. |
| `ClipboardDelivery.HeldLeavesForAReason` | src/clipboard/capture.js:439-484 | In every run a clip that was held and is held no more was written, or something at least as new had landed or taken the slot, or it was declined, or the session or the mode had ended. |
| `ClipboardDelivery.NewestIsKept` | src/clipboard/capture.js:299-484 | In every run the newest clip is held, being written or known to have landed, unless it is declined, the session or the mode ends, a direct write of it is refused, or its refused write finds the slot taken. |
| `ClipboardDelivery.ReturnsIfSlotEmpty` | src/clipboard/capture.js:471-480 | A refused clip of this session that nothing newer has overtaken goes back exactly if the slot is empty. |
| `ClipboardDelivery.OlderTakesTheSlot` | src/clipboard/capture.js:471-480 | The condition is needed: for any two texts, held and flushed one after the other, both writes refused, the older one's first: the older one is back in the slot and the newer one is nowhere. |
| `Clipboard.NextMoves` | src/clipboard/capture.js:173-484 | Every event of the device changes the clip ledger in one of ten ways and no other. |
| `Clipboard.MovesInOrder` | src/clipboard/capture.js:299-484 | Each of the ten keeps arrival order. |
| `Clipboard.MovesSafe` | src/clipboard/capture.js:299-484 | Each of the ten keeps flags and defused text. |
| `ClipboardCaptures.ClipboardCapture.Apply` | src/clipboard/capture.js:299-321 | The whole new state for an arriving clip: dropped, held with its flag, or written. |
| `ClipboardCaptures.ClipboardCapture.WriteNow` | src/clipboard/capture.js:352-356 | The claim and the suppression window are set before the write is asked for. |
| `ClipboardCaptures.ClipboardCapture.WriteSettled` | src/clipboard/capture.js:357-369 | A refused write takes its claim back; a landed one supersedes an older pending clip. |
| `ClipboardCaptures.ClipboardCapture.WriteRefused` | src/clipboard/capture.js:468-478 | A turn later a refused clip returns to the slot, unless a newer one took it, something newer landed, or its session ended. |
| `ClipboardCaptures.ClipboardCapture.PutOnClipboard` | src/clipboard/capture.js:381-396 | The user's own text is held without a flag, or written. |
| `ClipboardCaptures.ClipboardCapture.WritePending` | src/clipboard/capture.js:448-471 | The slot is emptied; a superseded clip is dropped, another is written under the session it belongs to. |
| `ClipboardCaptures.ClipboardCapture.FlushPending` | src/clipboard/capture.js:427-430 | A flagged clip is not written by a flush. |
| `ClipboardCaptures.ClipboardCapture.GraceTimer` | src/clipboard/capture.js:331-341 | The timer writes an unflagged clip once no fresher local copy holds it, and only with focus. |
| `ClipboardCaptures.ClipboardCapture.Capture` | src/clipboard/capture.js:284-291 | Sent only if visible, different from the last one when trimmed, and outside the window. |
| `ClipboardCaptures.ClipboardCapture.FromClipboard` | src/clipboard/capture.js:274-277 | A gesture marks a local copy; a poll that re-reads the same value does not. |
| `ClipboardCaptures.ClipboardCapture.TryRead` | src/clipboard/capture.js:173-187 | A read is asked for only while Live and outside the window, and an owed clip is flushed instead. |
| `ClipboardCaptures.ClipboardCapture.ReadAnswered` | src/clipboard/capture.js:187-192 | What a read brings counts only if still Live. |
| `ClipboardCaptures.ClipboardCapture.ForgetSession` | src/clipboard/capture.js:243-247 | The generation moves and the slot is emptied. |
| `ClipboardCaptures.ClipboardCapture.ApplyMode` | src/clipboard/capture.js:155-164 | Leaving Live withdraws a held clip. |
| `EchoRoom.NoEcho` | desktop/README.md:245-246 | In a room of any number of Live devices whose clipboards match what they last sent, with reads out, clips held and clips on their way, one local copy causes at most one clip frame ever, from the copying device, carrying the copied text, and none if it is blank or what the room already has; whatever the order of polls, reads, reports, pastes, arrivals, holds, confirms and failed writes, if the window outlasts the writes and the reads that were out with them, writes on a device do not overlap, and no read that had sampled before the copy answers late. |
| `EchoRoom.EchoOnlyIfLate` | src/clipboard/capture.js:173-199 | The last condition is exact: in every such run at most one frame crosses if and only if no read that had sampled before the copy answers, outside the window and after the copied text was captured, with something visible that is not what was last sent. |
| `EchoRoom.SentOnceLooked` | src/clipboard/capture.js:274-291 | Exactly one, from the first look at the copied text outside the window on, and it stays one for ever, unless a clip that arrived took its place before that look. |
| `EchoRoom.NothingTakesItsPlace` | src/clipboard/capture.js:299-321 | With nothing held at the copying device and nothing on its way to it, nothing ever takes its place. |
| `EchoRoom.CopySentOnce` | src/clipboard/capture.js:274-291 | A copy in a calm room, with no clip on its way to the copying device or held there, is sent exactly once from the first look at it outside the window on, in every run with no late answer; and not at all if it is blank or what the room already has. |
| `EchoRoom.EveryCaptureArrives` | backend/main.py:813-849 | In every run, what has arrived at a device and what is still on its way to it is what every other device captured, in order: none lost, none repeated, none sent back. |
| `EchoRoom.ArrivalIsTaken` | src/clipboard/capture.js:299-321 | And what arrives with anything visible in it is written at once or held. |
| `EchoRoom.InStepEvent` | src/clipboard/capture.js:173-370 | A device whose clipboard is what it last sent or applied captures nothing in any step but a late answer, and stays so: what it can read is that, or it is suppressed. |
| `EchoRoom.InStepReceive` | src/clipboard/capture.js:299-321 | An arriving clip, held or written over whatever was held before, keeps that. |
| `EchoRoom.InStepDone` | src/clipboard/capture.js:352-370 | So does the end of a write, landed or refused. |
| `EchoRoom.CopierEvent` | src/clipboard/capture.js:274-291 | The device that copied holds its text, or has captured it once, or has had it replaced by a clip that arrived. |
| `EchoRoom.OvertakenPollEchoes` | src/clipboard/capture.js:173-199 | The late answer is real: a poll sampled before the copy, a focus read samples after it and answers first; the new text goes out, and then the old. |
| `EchoRoom.LateAnswerEchoes` | src/clipboard/capture.js:173-199 | The window must last: a poll that sampled before an arriving clip was written and answers after the window sends the old value to the room. |
| `EchoRoom.OverlappingWritesEcho` | src/clipboard/capture.js:352-370 | Writes must keep apart: of two arriving clips written at once and landing the other way round, the older goes out again after the window. |
| `Session.NothingCrosses` | src/main.js:469-574 | If every room is left before another is opened, then in every run each frame on the wire was issued, or committed, and sealed and sent in one session, under the key of the room it was sent to, never in the clear, with sync on at issue and at sending; each tail sends in issue order; and no inbound frame acts, counts as proof of the key or is handed on in a session or under a key other than the one it arrived in. |
| `Session.OldKeyCrosses` | src/main.js:109-165 | The condition is needed, from every connected sharing session: opened over a live key, a frame whose seal began under the old key and ends after the new room is up is sent there. |
| `Session.NewKeyCrosses` | src/main.js:109-165 | And with another frame being sealed ahead of it, a frame issued in the old room is sealed with the new room's key and sent there. |
| `Session.NextInv` | src/main.js:109-609 | Every derivation, connection, drop, rung change, commit, flush, issue, seal, send and arrival keeps the invariant. |
| `Session.DerivedInv` | src/main.js:133-165 | A derivation that finishes late changes nothing; one that finishes in its session gives a key to a session that had none. |
| `Session.SealInv` | src/main.js:476-480 | A queued frame whose session is over is dropped before it is sealed. |
| `Session.TransmitInv` | src/main.js:484-486 | What passes the last check is faithful and in order. |
| `Session.OpenedInv` | src/main.js:421-426 | A frame that finishes opening in a later session is dropped. |
| `SessionDelivery.CommitIsSent` | src/main.js:445-488 | A clip committed in a connected, sharing session that stays so is on the wire exactly once by the time it has had its turn, under its room's key, to its room, in its session, if its seal does not fail; whatever is ahead of it and whatever else happens. |
| `SessionDelivery.IssueIsSent` | src/main.js:542-574 | So is a frame of any other sender. |
| `SessionDelivery.EarlyCommitIsSent` | src/main.js:445-503 | A clip committed before the key or the connection is there is sent exactly once when it comes, unless a newer one takes the slot. |
| `SessionDelivery.StrandedIsSent` | src/main.js:469-503 | So is a clip whose turn came when the connection had gone. |
| `SessionDelivery.StreamIsSent` | src/main.js:514-533 | A stream frame goes out once when its seal ends in the same connected, sharing session. |
| `SessionDelivery.ArrivedActsOnce` | src/main.js:308-426 | A frame that arrives on the open channel and opens in its session acts exactly once: a clip acts, anything else counts as proof and is handed on. |
| `SessionDelivery.NumbersAreSpent` | src/main.js:421-426 | Nothing that has been sealed or opened comes back. |
| `SessionDelivery.OpenedComesUp` | src/main.js:109-165 | The newest session opened gets its own room's key, whatever else is still being derived, and can connect. |
| `SessionDelivery.LeftIsSilent` | src/main.js:582-609 | After a room is left nothing is sent and nothing acts until another is opened, whatever was queued, being sealed, derived or opened. |
| `SessionDelivery.OffIsSilent` | src/main.js:484-486 | On Off nothing leaves, whatever was under way. |
| `SessionDelivery.DroppedIsSilent` | src/main.js:476-486 | After a drop nothing leaves until there is a connection again. |
| `ClientSessions.ClientSession.OpenSession` | src/main.js:109-110 | The generation moves before the derivation starts; the key does not. |
| `ClientSessions.ClientSession.KeyDerived` | src/main.js:133-165 | Only the newest session's derivation sets the key and connects. |
| `ClientSessions.ClientSession.LeaveRoom` | src/main.js:582-609 | Generation, channel, key and queued clip go in one step. |
| `ClientSessions.ClientSession.SendText` | src/main.js:445-466 | A clip that cannot be sent yet takes the one slot, with its session. |
| `ClientSessions.ClientSession.FlushQueuedClip` | src/main.js:492-503 | A queued clip is sent only in its own session and while sharing. |
| `ClientSessions.ClientSession.SendSealed` | src/main.js:542-574 | What a sealed sender answers is whether the frame was queued. |
| `ClientSessions.ClientSession.SealNext` | src/main.js:476-480 | The turn of a queued frame: dropped, kept for later, or sealed under the key there is. |
| `ClientSessions.ClientSession.SealDone` | src/main.js:484-486 | After the seal: sent if this is still the session and still sharing. |
| `ClientSessions.ClientSession.StreamSealed` | src/main.js:514-533 | The same for a frame sealed outside the queues. |
| `ClientSessions.ClientSession.FrameOpened` | src/main.js:421-426 | An opened frame acts, counts as proof and is handed on only in the session it arrived in. |
| `Connection.OneChannel` | src/transport/relay.js:209-332 | At any time at most one channel is unclosed, and it is the one the module holds; `down` ran at most once for every attempt. |
| `Connection.AttemptOrTimer` | src/transport/relay.js:209-332 | While a connection is wanted there is either an attempt or exactly one timer that will start one; an attempt not yet up is watched by its probe. |
| `Connection.BlockedMeansBlocked` | src/transport/relay.js:185-188 | 'Blocked' stands only while the last SWITCH_AFTER finished attempts on each transport all failed to open. |
| `Connection.PinnedStays` | src/transport/relay.js:165-183 | A pinned transport is kept through any run without a new connect or choice. |
| `Connection.NextLine` | src/transport/relay.js:91-332 | Every callback and timer, current or stale, keeps the line's invariant. |
| `Connection.NextPolicy` | src/transport/relay.js:126-320 | And the policy's: counts never exceed the failures in a row, and only a connect or a choice changes a pin. |
| `Connection.FailureCounts` | src/transport/relay.js:276-313 | A failed attempt counts against its transport; below the limit the transport stays, at the limit it is the other one's turn with a fresh start, and 'blocked' is said exactly when both are at the limit. |
| `Connection.TwoFailuresSwitch` | src/transport/relay.js:165-183 | Two attempts in a row that fail on a transport nobody pinned: the next is on the other. |
| `Connection.FailureIsRetried` | src/transport/relay.js:314-332 | Every failed attempt of a wanted connection is followed by a timer that will start the next. |
| `Connection.RetryStarts` | src/transport/relay.js:209-236 | That timer starts one, on the transport that is due, with its probe. |
| `Connection.OpeningClears` | src/transport/relay.js:238-253 | An attempt that opens clears the count against its transport and the word that neither works. |
| `Connection.SilenceEnds` | src/transport/relay.js:259-271 | A heartbeat that is not answered ends the connection, and another attempt follows. |
| `Connection.DropIsNoFailure` | src/transport/relay.js:289-295 | The end of a connection that had opened counts against no transport, switches nothing and is always retried. |
| `Connection.OnlyUsable` | src/transport/relay.js:126-183 | From a connect on the transport in use is one that can be had, in every run. |
| `Connection.AnswersKeepItUp` | src/transport/relay.js:259-271 | An answered one leaves it as it is, through any run until the next heartbeat. |
| `Connection.WaitGrows` | src/transport/relay.js:299-319 | The wait doubles with each failure up to its limit, and starts again after a switch or a restart of the relay. |
| `Connection.ChoiceTakesEffect` | src/transport/relay.js:139-161 | A choice of transport takes effect at once while a connection is wanted. |
| `Connection.ClosedStaysClosed` | src/transport/relay.js:108-114 | After a close, or a refusal that will be repeated, there is no channel and no attempt until somebody connects again, whatever timers are left. |
| `RelayConnections.RelayConnection.Start` | src/transport/relay.js:209-236 | A new epoch, a channel of that epoch, and a probe. |
| `RelayConnections.RelayConnection.Connect` | src/transport/relay.js:91-102 | A second connect replaces the channel and never stacks. |
| `RelayConnections.RelayConnection.Close` | src/transport/relay.js:108-114 | Whatever is pending belongs to a dead epoch. |
| `RelayConnections.RelayConnection.SetTransport` | src/transport/relay.js:139-161 | A choice takes effect at once, or waits for the next connect. |
| `RelayConnections.RelayConnection.SwitchTransport` | src/transport/relay.js:165-182 | Nothing while pinned or if the other is not available; else a fresh start on the other. |
| `RelayConnections.RelayConnection.OnUp` | src/transport/relay.js:238-253 | A success clears this transport's failures and the block. |
| `RelayConnections.RelayConnection.CountFailure` | src/transport/relay.js:294-319 | The block is decided before the switch zeroes a count. |
| `RelayConnections.RelayConnection.OnDown` | src/transport/relay.js:276-332 | One timer for the next attempt, or none after a refusal that will be repeated. |
| `RelayConnections.RelayConnection.ProbeTimer` | src/transport/relay.js:230-235 | An attempt still not up is closed and declared down. |
| `RelayConnections.RelayConnection.PongTimer` | src/transport/relay.js:265-271 | A connection that does not answer its heartbeat is closed and declared down. |
| `Outbox.Bounded` | src/transport/sse.js:118-180 | In every run: at most one POST at a time, no frame in more than two, and every batch within the frame limit and, unless it is one frame, the byte limit. |
| `Outbox.NothingOvertakes` | src/transport/sse.js:118-180 | A frame is posted only when every frame sent before it was posted in an earlier POST or stands ahead of it in the same one. |
| `Outbox.TakeFits` | src/transport/sse.js:118-128 | A batch is never empty, fits the limits, and one more frame would not have. |
| `Outbox.TakesBatchAgain` | src/transport/sse.js:153-158 | A failed batch put back in front is taken again whole, whatever was queued behind it. |
| `Outbox.LegalBatchFits` | backend/main.py:257 | A batch of frames each within the relay's frame cap, joined line by line, is within its body cap. |
| `Outbox.NextInv` | src/transport/sse.js:118-204 | Every send, answer, failure, retry, drop and close keeps the invariant. |
| `Outbox.EverythingIsPosted` | src/transport/sse.js:118-194 | While the stream goes on no frame taken is left behind: with no POST under way and no timer set the outbox is empty and every frame ever taken was in some POST. |
| `Outbox.FailedIsRepeated` | src/transport/sse.js:149-158 | A batch whose POST failed for the first time is posted again, whole and first, whatever was sent meanwhile. |
| `Outbox.IdleSendPosts` | src/transport/sse.js:130-148 | A frame that finds nothing under way is posted at once. |
| `Outbox.OverIsOver` | src/transport/sse.js:167-204 | After a close or the loss of the stream nothing is taken and nothing is posted. |
| `SseOutboxes.SseOutbox.TakeBatch` | src/transport/sse.js:118-128 | The shifting loop takes exactly the longest batch that fits and leaves the rest. |
| `SseOutboxes.SseOutbox.Flush` | src/transport/sse.js:130-148 | Nothing while a POST or a retry is out, before the welcome, or with nothing to send. |
| `SseOutboxes.SseOutbox.PostFailed` | src/transport/sse.js:149-162 | The first failure puts the batch back and waits; the second drops it and goes on. |
| `SseOutboxes.SseOutbox.PostAnswered` | src/transport/sse.js:167-180 | A lost stream ends the channel; any other answer goes on with what is queued. |
| `SseOutboxes.SseOutbox.Send` | src/transport/sse.js:189-194 | Taken exactly when open, and queued last. |
| `ReplicaBus.AtMostOnce` | backend/shared.py:131-219 | On any number of replicas, in any run, no connection gets a room-wide frame twice and no sender gets its own. |
| `ReplicaBus.ExactlyOnce` | backend/shared.py:131-219 | A peer in the room when a frame was accepted, and still there, on the accepting replica or on one subscribed since before, has it exactly once when nothing is left to pump, if the accepting replica could publish it. |
| `ReplicaBus.PumpWork` | backend/main.py:852-887 | Handling a remote message publishes nothing unless a targeted write fails, and then it drops a peer. |
| `ReplicaBus.FallsSilent` | backend/main.py:852-887 | So a room nobody sends into falls silent: pumps alone can take only a bounded number of messages, whichever writes fail. |
| `ReplicaBus.NextInv` | backend/shared.py:131-219 | Every join, departure, frame, targeted frame, pump, degradation and new subscription keeps the invariant. |
| `ReplicaBus.AcceptDue` | backend/main.py:813-849 | An accepted frame is queued once for every subscriber and given once to every other local peer. |
| `ReplicaBus.RemoteFrameInv` | backend/main.py:887 | A pumped frame is given to every peer here, none of which had it. |
| `ReplicaBus.JoinedGetsItOnce` | backend/main.py:813-849 | Whoever joined is still there, whatever befell the others, unless it left or could not be written to; and when its replica has nothing left to pump it has every frame anyone else sent since, once, that came in there or was published to a subscription that had begun. |
| `ReplicaBus.LogIsWhatWasSent` | backend/main.py:813-849 | Every room-wide frame of a run is accepted once, in the order of arrival. |
| `ReplicaBus.AcceptedIsPublished` | backend/shared.py:131-160 | A frame from a replica with a bus is handed to every live subscription once, and from any other to none. |
| `ReplicaBus.RostersAreTold` | backend/main.py:980-1021 | Every live subscription is told once when somebody comes, goes, or could not be given a frame meant for it; and a frame for somebody elsewhere goes to wherever it may be. |
| `ReplicaBus.DegradedIsQuiet` | backend/shared.py:131-160 | A replica that has lost the bus publishes nothing. |
| `SharedBackends.HandedIsPublished` | backend/shared.py:145-155 | What a backend hands over, stamped, or nothing when there is no bus to be had, is exactly what the queue of every subscriber gets. |
| `SharedBackends.Backend.Pump` | backend/shared.py:186-202 | The loop hands on every remote message in order and none of our own. |
| `SharedBackends.PumpingHandsOnRemote` | backend/shared.py:186-202 | Pumping any number of messages is handling those of other replicas among them, in order and whichever writes fail, and nothing else. |
| `SharedBackends.RemoteMeans` | backend/shared.py:193-195 | Exactly the messages of other replicas, none lost or repeated. |
| `LockProof.OneExchange` | src/core/verify.js:101-128 | In a room of n devices one exchange has at most one question, which is posted twice at most, and at most n - 1 answers for each time it was posted, ever. |
| `LockProof.AnsweredOnceEach` | src/core/verify.js:101-128 | If the transport never posts that question again there are at most n - 1 answers. |
| `LockProof.TwoCopiesTwoAnswers` | src/transport/sse.js:149-162 | The condition is needed: from any state in which somebody's question is on its way to an eligible device and is posted once more, that device seals two answers. |
| `LockProof.QuestionsKeepApart` | src/core/verify.js:101-112 | Two questions of one device in one epoch are at least the interval apart, in every run. |
| `LockProof.OneAnnouncement` | src/core/verify.js:141-144 | An unprompted proof is one frame, posted twice at most, and draws no answer. |
| `LockProof.SentWhereSealed` | src/core/verify.js:85-93 | No proof sealed in one session or epoch is sent in another. |
| `LockProof.MutuallyVerified` | src/core/verify.js:70-128 | From any state of any room: an unverified eligible device that may ask does so. In every run that loses no frame between it and another eligible device, and in which neither cancels, moves or stops being eligible, both are verified once no frame of that exchange is being sealed or on the wire, whatever else is asked, announced, repeated or lost meanwhile. |
| `LockProof.NextUnderway` | src/core/verify.js:101-128 | In every such step the question is being sealed at the asker or is on its way to the other, or the other is verified and its answer is being sealed or on its way back, or both are verified. |
| `LockProof.VerifiedInFive` | src/core/verify.js:101-128 | From any such state there is a run of five steps that verifies both. |
| `LockProof.OneSidedIfLost` | src/core/verify.js:101-128 | With the one answer lost, the exchange ends with the answering device verified and the asker not. |
| `LockProof.AnnouncedIsVerified` | src/core/verify.js:130-144 | An announcement from any state verifies every other device that was there, in every run that keeps the announcer eligible and loses no copy to that device. |
| `LockProof.AsksExactlyIf` | src/core/verify.js:101-112 | A question is asked exactly by an eligible, unverified device in company outside the interval; any other attempt changes nothing, the interval included. |
| `LockProof.AnnouncesExactlyIf` | src/core/verify.js:141-144 | An announcement is made exactly by an eligible device in company. |
| `LockProof.AnswersExactlyIf` | src/core/verify.js:124-128 | A frame that opens verifies its device and is answered exactly if it is another's question and the device is eligible. |
| `LockProof.CancelAbandons` | src/core/verify.js:85-93 | After a cancel or a change of rooms nothing is sent of what the device was sealing before. |
| `LockProof.CancelledMayAsk` | src/core/verify.js:147-150 | And it may ask again at once, however lately it asked. |
| `LockProof.IneligibleIsSilent` | src/core/verify.js:70-93 | On Off a device sends no proof, not even one that was being sealed. |
| `LockProof.VerifiedOnlyByAFrame` | src/core/verify.js:63-93 | In another room nothing counts as proved until a frame opens there. |
| `LockProof.NextInv` | src/core/verify.js:70-151 | Every question, announcement, seal, repeated post, arrival, loss, cancel and room change keeps the counts per exchange. |
| `Verifiers.Verifier.Request` | src/core/verify.js:101-112 | A question is begun, and the interval stamped, exactly as in the `Question` step that the theorems of `LockProof` are about. |
| `Verifiers.Verifier.Cancel` | src/core/verify.js:147-150 | Exactly the `Cancelled` step: in-flight proofs are abandoned and a new room may ask at once. |
| `RateBuckets.Throttled` | backend/main.py:445-460 | From any state and for any mixed arrivals in order of time, an interval of length T > 0 admits at most limit * (ceil(T / window) + 1) frames of a class. |
| `RateBuckets.RefusedOnlyOver` | backend/main.py:455-460 | A frame is refused only if at least `limit` frames of its own class came within the last window. |
| `RateBuckets.Independent` | backend/main.py:298-352 | What is admitted of one class depends on that class's arrivals alone. |
| `RateBuckets.CountIsTrue` | backend/main.py:455-460 | A count never exceeds the frames of its class that arrived in its window. |
| `RateBuckets.RateCounters.Allow` | backend/main.py:455-460 | The verdict and the whole new counters for one frame. |
| `FrameBudget.ClipFits` | src/core/config.js:125-132 | For every frame cap of at least the envelope, a clip within the derived limit fits it as JSON, base64 with the tag, the vector, an id of up to 64 characters and any stamp. |
| `FrameBudget.ChunkFits` | src/files/chunker.js:33-44 | For every such cap a chunk of the derived size fits after two rounds of base64, the tag, and four ids of up to 64 characters. |
| `FrameBudget.Base64Length` | src/core/crypto.js:185-192 | Four characters for every three bytes, padded (section 4 of RFC 4648). |
| `FrameBudget.Base64RoundTrip` | src/files/chunker.js:243-258 | Decoding what was encoded gives the bytes back. |
| `FrameBudget.FullChunkDoesNotFit` | src/files/chunker.js:23-31 | A data-channel chunk of 32 KB does not fit a 32 KB frame, whatever its ids. |

## Left out

- The read loop of a WebSocket: `ClipLog` lets a connection speak again before its own fan-out has ended, which only adds runs; no device does so in `ClipLog.GapBeforeSettling`, and its presence frames are left out.
- The relay's word that a transfer's receiver is not there (NO_SUCH_PEER): it is shown to the holder and ends nothing; in `Transfer` such a frame is simply lost.
- Browser and server plumbing: HTTP routes, headers, CORS, health and statistics pages, environment parsing, storage, history, the interface, translations, the tray and the popup.
- WebRTC internals: session descriptions, candidates and buffer thresholds; only "opens", "fails", "stalls", "closes" and ordered delivery remain.
- The request and approval prompts before a transfer, the progress percentage, and two attempts under one file id at once: `live` is keyed by id and the model is of one attempt at a time.
- Images on the clipboard: they leave through the files layer and add no order of their own.
- Concrete patterns of the guard: every statement takes them as one predicate on a line.
- Two retirements of one room name at the same moment, and identity claims made on two replicas at the same moment: not atomic in the code. Retirement is one step here, and the single-process tables take the shared backend as off.
- Floating point: the divisions by 4/3 in the derived limits are exact here.
- `_short` and `_client_ip`: the relay model takes trimmed ids, nicknames and the source address as inputs.
- A peer cap below one: `_int` replaces a setting that is not positive, so every statement about the relay's tables takes the cap as at least one.
- The dropping of a subscription in `_recover`: the model takes the old pump as gone when a new subscription begins, which is the Redis client's part.
- ClipLog.SettledIsGapFree: does not cover a peer whose welcome could not be written, because the relay ignores that failure and keeps the peer.
- Session.NothingCrosses: does not cover opening a session over a live key, because the statement is false there; `Session.OldKeyCrosses` and `Session.NewKeyCrosses` show the frames that cross. What follows the return of `openFrame` belongs to that step: the awaiting caller goes on before any other task of the browser.
- ReplicaBus.ExactlyOnce: takes the fan-out within one replica as one step; `ClipLog` has its interleavings.
- Delivery.UnhurtIsDelivered: counts a close of the channel as hurt; the requester that has everything closes it too, and the model lets that come before the holder has marked everything as queued, which the browser does not.
- EchoRoom.NoEcho: starts from devices with no write in flight, since the clipboard of any other does not match what was last sent.
- LockProof.OneExchange: lets a frame even reach a device that left and came back, which the relay does not do.
- Clipboard.AloneRises: takes a write as landed exactly when its promise succeeds.
- RateBuckets.RateCounters: takes the clock as a parameter that never goes back.
- FrameBudget.ClipFits: takes ids that JSON prints as they are.
