# ShellWatch: the locked state machines, verified

ShellWatch brokers SSH sessions. What is hard about it is not any one function but a handful of
small state machines that many goroutines drive at once: the session registry, the output ring and
its WebSocket fan-out, the pending approvals, host-key trust on first use, and the concurrency and
paging primitives around them. This project models each of them in Dafny and proves what holds in
every run.

Concurrent components are modelled as atomic steps. One step is one critical section, one channel
operation, one SQL statement or one hook call; a run is any sequence of enabled steps, so a theorem
about `Run(Initial, steps, s)` speaks about every interleaving. Beside the step models stand the
objects themselves (`OutputBuffer`, `Conn`, `Hub`, `Registry`, `Store`, `Limiter`, ...): classes
whose methods are the bodies of the critical sections, proved against the functions the steps are
made of.

| files | component |
|---|---|
| `OutputBuffer.dfy` | the bounded output ring, refining the unbounded byte stream |
| `WsConn.dfy`, `Hub.dfy`, `Fanout.dfy`, `FanoutProofs.dfy`, `FanoutDrain.dfy`, `FanoutKept.dfy`, `FanoutWitness.dfy`, `FanoutKeptWitness.dfy`, `FanoutObjects.dfy`, `FanoutRegistry.dfy` | one connection's outbound side, the hub's loops, the machine of pump, Close calls, purge, attach and flush, and what ties it to the connection object and to the registry |
| `Sessions.dfy`, `SessionProofs.dfy`, `SessionReasons.dfy`, `SessionWitness.dfy`, `Manager.dfy` | the session registry |
| `LongPoll.dfy`, `SessionStatus.dfy` | the long-polling reader; the statuses it and the fan-out share |
| `Approvals.dfy`, `ApprovalProofs.dfy`, `ApprovalStore.dfy` | pending actions, broker channels, HTTP answers |
| `HostKeys.dfy`, `HostKeyProofs.dfy`, `HostKeyObjects.dfy`, `HostKeyWitness.dfy` | host-key pinning |
| `KeyedMutex.dfy`, `LastUsed.dfy`, `RateLimit.dfy`, `Ephemeral.dfy`, `EphemeralRuns.dfy` | keyed mutex, write-behind flusher, limiter, TTL store |
| `AuditPages.dfy`, `Framing.dfy` | keyset pagination, agent frame reassembly |

## What turned out to be false, and exactly when

- A client's text can join bytes from both sides of a buffer clear. `ReadOutputFrom` looks the entry
  up and reads its buffer in two steps; if the session is removed in between and an abandoned pump's
  last chunk then reaches the cleared buffer, a delta is sent that belongs to another stream
  (`FanoutWitness.SpliceHappens`). `FanoutProofs.SplicesExactlyWhen` gives the exact condition for
  a flush; without a timed-out Close it cannot happen.
- "Every attached connection is sent the last byte before `terminal:closed`" fails in two ways for an
  attach that becomes visible after the session ended. Either it had read the buffer early and every
  later lookup finds the entry gone (`FanoutWitness.LateAttachMissesTail`), or a flush finds the entry,
  the session is removed, and the flush then reads the cleared buffer and blanks a client that already
  had every byte (`FanoutWitness.LateFlushBlanksClient`). `FanoutDrain.ReachesTheEndExactlyWhen` shows,
  for every attach, that these are exactly the failures; an attach that landed before the end is always
  drained (`FanoutDrain.EveryByteBeforeClosed`).
- A client that keeps its text when it attaches again can be sent a byte twice: it asks from the last
  offset it has received while a later frame is still queued for it
  (`FanoutKeptWitness.ReattachRepeats`). And when a Close gave up on its pump it can be sent bytes of the
  other side of the clear although it asks from exactly where its text ends: the entry is looked up, the
  session is removed, the pump's last chunk is appended, and only then is the buffer read
  (`FanoutKeptWitness.ReattachCrosses`). `FanoutKept.ContinuesExactlyWhen` shows that these are the only
  failures: an attach continues the kept text if and only if the reply is a reset, the client holds
  nothing, or the reply begins where the text accepted for the client ends and that text is the same
  stream's; without a timed-out Close asking from there is enough.
- The limiter reads the clock before it takes its lock, so a hit can be counted in a bucket younger than
  itself. For every limit from 2 on, one client can then have any number of hits allowed within one
  window (`RateLimit.StaleTimesBreakAnyBound`); the bound survives arbitrary stale times exactly when
  the limit is 1 (`RateLimit.SurvivesExactlyWhen`). When no hit is older than the bucket it is counted in
  and no window of the key was cut short by a removal, the bound is one better than twice the limit,
  `2 * max - 1`, whatever other keys' clocks do, and for every limit it is reached.
- The frame reassembler adds and compares in 32 bits. `Framing.StepAgreesExactlyWhen` says exactly
  when one round agrees with the stream; at a buffered frame of 2^32 bytes the loop sends empty
  messages until the socket fails (`Framing.WrapSendsNothing`).
- An audit cursor with an empty half is ignored, so the reader starts over
  (`AuditPages.EmptyIdRestarts`). The law of the audit log is proved for tables whose matching rows have
  a timestamp and an id. No writer makes others: ids come from `GenerateSessionID`
  (internal/terminal/types.go:77-82) and timestamps from the clock. If there were any, a traversal of an
  unchanging table by one limit that ends would still show every row once (`AuditPages.UnchangedShowsAllOnce`), but
  with such a row last on a page it would not end (`AuditPages.EndsOnlyIfReadBack`).
- `error` does not absorb a later Close: closing, error, closing, closed is legal, and a session can
  emit five status events (`SessionWitness.FiveEventsHappen`), which is the most it ever does.

## Assumptions

- Generated ids are fresh; the clock does not go back (except in `RateLimit`, where the order in
  which readings enter the lock is arbitrary unless a theorem says otherwise).
- A transport ends its event stream after Close, or the Close call gives up on it: both are steps.
- SQL statements are atomic and do what `internal/store/gen/endpoints.sql.go`,
  `internal/store/gen/accounts.sql.go` and the query text in `internal/audit/sessions.go` say.
- Offsets, counters and times are unbounded integers, except in `Framing`, where 32-bit wrap-around is
  modelled.
- Fingerprints are injective. Key exchange precedes authentication, and a rekey runs the same callback.
- Two clients are modelled. One starts over at every attach (`WsConn.Text`): what it holds across a
  re-attach is one piece because the reply replaces it. The other keeps its text and clears only on a
  reset (`FanoutKept.Kept`), as docs/api/websocket-protocol.md allows; for it continuity across a
  re-attach is a theorem with a condition.
- Distinct sessions and distinct connections share nothing the fan-out machine reads or writes except
  a connection's outbound queue, so it follows one session on one connection and lets frames of all
  other sessions arrive on that queue at any time.

## Model

| member | source | states |
|---|---|---|
| `OutputRing.OutputBuffer.Append` | internal/terminal/buffer.go:32-41 | the window is always exactly the newest `maxSize` bytes of the stream, at their stream offsets |
| `OutputRing.OutputBuffer.Read` | internal/terminal/buffer.go:51-74 | a bounded read of the window is the page the unbounded stream defines |
| `OutputRing.PageOf` | internal/terminal/buffer.go:51-74 | a page is the stream from the clamped offset to the offset it reports, within the limit, and has more exactly when that is not the end, and then the limit is used up |
| `OutputRing.PagesJoin` | internal/terminal/buffer.go:51-74 | following the offsets through pages of any limits yields an unbroken piece of the stream, and enough pages reach its end |
| `OutputRing.OutputBuffer.ReadFrom` | internal/terminal/buffer.go:85-100 | the delta of the window is the delta of the stream |
| `OutputRing.DeltaOf` | internal/terminal/buffer.go:85-100 | a delta ends at the stream's end; it is a reset exactly when the offset was evicted or lies ahead, and otherwise continues the offset without gap or overlap |
| `OutputRing.OutputBuffer.Tail` | internal/terminal/buffer.go:112-127 | the newest bytes within the limit; a cut tail begins at the first ESC of the cut piece, or is the whole piece if it has none |
| `OutputRing.OutputBuffer.CurrentOffset` | internal/terminal/buffer.go:103-107 | the length of the stream |
| `OutputRing.OutputBuffer.Clear` | internal/terminal/buffer.go:130-135 | a new, empty stream |
| `WsConn.Conn.EnqueueLocked` | internal/ws/conn.go:65-78 | dropped when closed, queued while fewer than 256 wait, else the channel is closed, once; false exactly when this frame closed it |
| `WsConn.Conn.Close` | internal/ws/conn.go:103-111 | the channel is closed at most once |
| `WsConn.Conn.AttachWithCatchUp` | internal/ws/conn.go:133-152 | attach, control and offset in one section; the frames are queued whole if they fit, cut at 256 if they do not, dropped when closed |
| `WsConn.Conn.DetachLocked` | internal/ws/conn.go:157-163 | the session's three entries go, and whether it was attached is told |
| `WsConn.Conn.FlushLocked` | internal/ws/conn.go:218-246 | exactly the delta past the recorded offset, in the buffer as it is when read (cleared, if the removal came after the lookup), is offered and its end recorded; nothing for a session not attached or not found |
| `WsConn.Conn.CloseSession` | internal/ws/conn.go:183-193 | drain, detach, and one closed frame if it was attached |
| `WsConn.CloseTwice` | internal/ws/conn.go:183-193 | closing again changes nothing, whatever the registry then answers |
| `WsConn.OfferAllOk` | internal/ws/conn.go:65-111 | accepted frames stay a prefix of offered ones through any burst; an overflow loses only a suffix |
| `WsConn.OrderedMeans` | internal/ws/conn.go:157-193 | between a closed frame and the next output or closed frame of a session lies a new attach |
| `WsConn.OrderedPrefix` | internal/ws/conn.go:65-78 | the order of frames holds of every prefix the client may have got |
| `WsConn.OverflowCuts` | internal/ws/conn.go:65-78 | a burst that does not fit fills the queue, closes the channel once and goes no further |
| `WsConn.FlushSays` | internal/ws/conn.go:218-246 | field by field what a flush leaves and the one frame it offers |
| `WsConn.CloseSays` | internal/ws/conn.go:183-193 | field by field what a close leaves and the frames it offers |
| `Hub.Hub.OnOutput` | internal/ws/hub.go:129-141 | every attached connection is flushed and no other is touched |
| `Hub.Hub.OnStatusChange` | internal/ws/hub.go:112-126 | on a final status every attached connection gets drain and closed frame and keeps nothing of the session; every connection gets a session list last |
| `Hub.Hub.OnRemoved` | internal/ws/hub.go:63-75 | no connection is attached afterwards; those that were got drain and closed frame |
| `FanoutProofs.ClientHoldsOnePiece` | internal/ws/conn.go:133-246 | in every run a client that starts over at each attach holds one contiguous piece of the byte stream ending at the recorded offset, with the exact exception of a splice |
| `FanoutProofs.SplicesExactlyWhen` | internal/terminal/manager.go:374-381 | a delta crosses the clear exactly when the read lands on a removed session's buffer, the offset predates the removal and the late chunk reaches past it |
| `FanoutProofs.AtMostOneLateChunk` | internal/terminal/manager.go:304-308 | an abandoned pump appends at most one chunk to the cleared buffer |
| `FanoutDrain.ReachesTheEndExactlyWhen` | internal/terminal/manager.go:374-381 | with joined Closes and no purge, any attached client has been sent the transport's last byte when its closed frame is due if and only if there was none, or no flush since the attach looked up before the removal and read after it, and some lookup since found the entry or the reply reached the end; a crossed read leaves it blank |
| `FanoutDrain.EveryByteBeforeClosed` | internal/terminal/manager.go:510-533 | for an attach that preceded the session's end this always holds |
| `FanoutKept.KeptTextIsOnePiece` | internal/ws/conn.go:133-246 | a client that keeps its text over any number of attaches holds one contiguous piece, each byte the stream's byte at its offset, in every run whose attaches rejoin |
| `FanoutKept.ContinuesExactlyWhen` | internal/ws/router.go:49-72 | after an attach the kept text is one piece of the reply's stream ending at the recorded offset if and only if the reply is a reset, nothing is held, or the reply begins where the accepted text ends and that text agrees with the reply's stream; when both were read on the same side of the removal, or no Close gave up on its pump, the offset alone decides |
| `FanoutKept.ExtendsExactlyWhen` | internal/ws/conn.go:229-245 | a held piece and a frame of a stream are one piece of it exactly when the frame begins where the piece ends and the piece is the stream's |
| `FanoutProofs.FramesInOrder` | internal/ws/conn.go:65-111 | accepted is a prefix of offered, at most one channel close, no output or second closed frame without a new attach |
| `FanoutProofs.AcceptedOnlyGrows` | internal/ws/conn.go:65-111 | accepted frames are never taken back, and none is added after the close |
| `FanoutObjects.FlushAlone` | internal/ws/conn.go:211-246 | the machine's flush sections, with nothing in between, do to the connection what the object's flush does |
| `FanoutObjects.CloseAlone` | internal/ws/conn.go:183-193 | likewise for drain, detach and closed frame |
| `FanoutObjects.DetachAlone` | internal/ws/conn.go:165-173 | the machine's detach leaves nothing of the session on the connection |
| `FanoutObjects.AttachAlone` | internal/ws/router.go:58-72 | the machine's attach records the reply's offset and offers status, mode and output frames |
| `FanoutRegistry.EveryStateIsARegistryState` | internal/terminal/manager.go:295-583 | every state the fan-out machine reaches is, in status, registration, transport, pump and Close calls, a state the registry machine reaches |
| `FanoutRegistry.StepLook` | internal/terminal/manager.go:295-583 | each fan-out step is a step of that view or leaves it alone |
| `FanoutRegistry.OpenIsRegistered` | internal/terminal/manager.go:536-558 | an open session is in the registry, by the registry's own theorem |
| `FanoutWitness.SpliceHappens` | internal/terminal/manager.go:304-308 | a reachable state in which the client's text joins two streams |
| `FanoutWitness.LateAttachMissesTail` | internal/ws/router.go:50-85 | a reachable state in which an early-read, late attach is closed without the last byte |
| `FanoutWitness.LateFlushBlanksClient` | internal/terminal/manager.go:374-381 | a reachable state in which a client that had every byte was blanked before its closed frame |
| `FanoutKeptWitness.ReattachRepeats` | internal/ws/router.go:49-72 | a run whose attaches rejoin, up to one that asks below a queued frame and gives the client a byte twice |
| `FanoutKeptWitness.ReattachCrosses` | internal/terminal/manager.go:374-381 | a run whose attaches rejoin, up to one that asks from where the text ends and joins bytes of both sides of the clear |
| `SessionProofs.StatusTrace` | internal/terminal/manager.go:562-712 | at most five events per session, chained, open once and never after closing, error once, one out of opening, nothing after closed, reason fixed |
| `SessionProofs.TraceOnlyGrows` | internal/terminal/manager.go:686-712 | events are never withdrawn and a stamped reason never changes |
| `SessionProofs.PathIsGood` | internal/terminal/manager.go:686-712 | the trace properties follow for every path of the status graph |
| `SessionProofs.NoTransportLost` | internal/terminal/manager.go:222-288 | in every reachable state each returned transport is closed, ended, in a live registered session, or in the hands of a Create or Close still under way |
| `SessionProofs.NoTransportLeaked` | internal/terminal/manager.go:239-288 | once Create and the Closes are through, it is closed, ended, or in an open registered session |
| `SessionProofs.ClosedWhileConnecting` | internal/terminal/manager.go:239-271 | a session whose close began before adoption never adopts and never becomes open |
| `SessionProofs.SetupIsCancelled` | internal/terminal/manager.go:495-508 | while the factory of a closing session runs, its context has been cancelled or the Close that will cancel it is under way |
| `SessionProofs.SweepStops` | internal/terminal/manager.go:148-158 | when a sweep returns, none of its sessions is or becomes opening or open |
| `SessionProofs.NothingAfterDestroy` | internal/terminal/manager.go:225-235 | after the flag no session is registered |
| `SessionProofs.DestroyStopsAll` | internal/terminal/manager.go:661-670 | once Destroy returns no session at all is or becomes opening or open |
| `SessionProofs.RemovedExactlyOnce` | internal/terminal/manager.go:536-558 | over all removal paths one round of removed hooks per session removed, none for any other |
| `SessionProofs.PurgeIsExact` | internal/terminal/manager.go:631-655 | a purge takes out exactly the account's closed and failed sessions |
| `SessionReasons.ReasonIsFirstSaid` | internal/terminal/manager.go:562-712 | a session's close reason is the first non-empty one told to the transitions that took effect, and each event carries the reason known then |
| `SessionReasons.PumpGivesItsOwn` | internal/terminal/manager.go:295-335 | a pump that ends a session without a reason leaves error by transport-error or closed by server-hangup |
| `SessionReasons.OpenHasNoReason` | internal/terminal/manager.go:273-277 | a session nobody closed has no reason yet |
| `SessionWitness.DestroyReturns` | internal/terminal/manager.go:661-670 | a Destroy that finds an open session closes it, removes it and returns |
| `SessionWitness.FiveEventsHappen` | internal/terminal/manager.go:562-583 | a reachable session with five status events |
| `Manager.Registry.Register` | internal/terminal/manager.go:225-235 | refused exactly when the flag is up; otherwise the entry is filed under its id, with a buffer of its own |
| `Manager.Registry.Adopt` | internal/terminal/manager.go:242-248 | the transport is adopted only if no Close moved the session, and the cancel is gone either way |
| `Manager.Registry.SetStatus` | internal/terminal/manager.go:686-712 | absorbed exactly as listed; else the status moves, the first non-empty reason is stamped, and the event says both with the old status |
| `Manager.Registry.BeginClosing` | internal/terminal/manager.go:562-583 | an event exactly when not closing or closed; then the status is closing, the first non-empty reason is stamped, and the event says so |
| `Manager.Registry.RemoveEntry` | internal/terminal/manager.go:542-558 | the entry goes with its output cleared, others' output untouched; true exactly when this call deleted |
| `Manager.Registry.RemoveForAccount` | internal/terminal/manager.go:631-655 | exactly the account's closed and errored sessions go, each with its output |
| `Manager.Registry.SessionsOfClient` | internal/terminal/manager.go:602-612 | exactly the account's unfinished MCP sessions of the client, or of all clients when none is named |
| `Manager.Registry.Destroy` | internal/terminal/manager.go:661-668 | flag and snapshot of all ids in one section |
| `LongPoll.NothingMissed` | internal/agent/session.go:262-317 | a reader asleep on an empty wake channel has missed no output and no final status but those whose notification is in flight |
| `LongPoll.DeliveryWakes` | internal/agent/session.go:275-294 | delivering any notification in flight makes the sleeping reader runnable |
| `LongPoll.WokenReaderReturns` | internal/agent/session.go:298-316 | a reader woken with output unread, or after the session closed or was removed, does not sleep again before it returns, whatever else happens meanwhile |
| `LongPoll.ReadSays` | internal/agent/session.go:262-317 | output exactly when the read finds some, ended exactly when gone, closed or failed, not found exactly when not registered, no wait only if not asked; asleep exactly when a check after both subscriptions finds nothing |
| `LongPoll.WaitSays` | internal/agent/session.go:309-315 | a wake looks again with an empty channel, a timeout reads once more, a cancel ends it |
| `LongPoll.ComesToSleep` | internal/agent/session.go:262-309 | on an open session with nothing unread a reader asked to wait comes to sleep with both hooks subscribed |
| `LongPoll.OutputWakes` | internal/terminal/manager.go:308-319 | output past its offset wakes it and is what it answers |
| `LongPoll.EndWakes` | internal/terminal/manager.go:686-711 | so does the end of the session |
| `LongPoll.LegalIsTheRegistrys` | internal/terminal/manager.go:562-712 | the status changes assumed are those the registry makes |
| `ApprovalProofs.ResolvedExactlyOnce` | internal/approval/store.go:253-394 | at most one callback and one event per action, none while pending; when nothing is owed exactly one of each, of the outcome on record; completed iff approved, expired iff timed out, denied iff refused or cancelled |
| `ApprovalProofs.PendingIsListed` | internal/approval/store.go:327-347 | no action is deleted unresolved, not even by a sweep that expires and deletes it |
| `ApprovalProofs.SendNeverBlocks` | internal/approval/broker.go:56-82 | a callback that is owed finds its one-slot channel empty |
| `ApprovalProofs.ApprovedMeansApproved` | internal/approval/broker.go:73-82 | the waiter is told approved only for an action approved before its deadline |
| `ApprovalProofs.NoLateApproval` | internal/approval/store.go:360-384 | no approval is claimed at or after the deadline, whatever the sweeps do |
| `ApprovalProofs.ClaimIsTruthful` | internal/approval/store.go:360-384 | found exactly when listed and of the kind asked; won exactly when this call moved the action, before its deadline, to completed or denied as asked; the status named is the status held |
| `ApprovalProofs.DenyIsFinal` | internal/rest/actions.go:93-113 | a deny answered 200 means no approval callback ran or ever runs, and the status answered, denied or expired, is the final one |
| `ApprovalProofs.ResolveIsFinal` | internal/rest/actions.go:77-90 | a resolve answered 200 is the one approval, for good, and the action stays completed |
| `ApprovalProofs.DenyAnswers` | internal/rest/actions.go:93-126 | 404 exactly when the action is gone, 409 when it was completed, else 200, with the final status |
| `ApprovalProofs.ResolveAnswers` | internal/rest/actions.go:77-90 | 200 exactly when this call approved a pending action in time; else 404 or 409 with the status held |
| `ApprovalProofs.WaiterLearns` | internal/approval/broker.go:73-82 | a waiter can take what was sent, and learns approved exactly from an approval |
| `ApprovalProofs.CreateSays` | internal/approval/store.go:208-226 | pending, listed, deadline one minute ahead |
| `ApprovalProofs.CancelSays` | internal/approval/store.go:301-318 | exactly the connection's pending actions are cancelled and denied |
| `ApprovalProofs.SweepSays` | internal/approval/store.go:327-347 | exactly the overdue pending ones expire; exactly the terminal ones two minutes overdue go |
| `ApprovalStore.Store.Create` | internal/approval/store.go:208-226 | a new pending action with its deadline one TTL ahead |
| `ApprovalStore.Store.TakePending` | internal/approval/store.go:360-384 | a pending action in time becomes completed or denied as asked and is answered so; an overdue one expires; a terminal one is named; nobody else's changes |
| `ApprovalStore.Store.CancelForConnection` | internal/approval/store.go:301-310 | exactly the connection's pending actions are denied and returned |
| `ApprovalStore.Store.Sweep` | internal/approval/store.go:327-340 | exactly the overdue pending ones expire and are returned; exactly the terminal ones past the grace window go |
| `HostKeyProofs.ReturnedIsTrusted` | internal/sshx/transport.go:252-256 | a connection is returned only on a key whose fingerprint, and key if known, is the looked-up pin's, or that its own approval pinned |
| `HostKeyProofs.PinsWhatWasShown` | internal/sshx/webauthn_signer.go:67-137 | the key about to be pinned is the one the approval showed and this connection observed |
| `HostKeyProofs.PinFollowsAddress` | internal/store/endpoints.go:123-135 | a stored pin always belongs to the endpoint's current address |
| `HostKeyProofs.DifferentKeysNeedAReset` | internal/store/endpoints.go:174-213 | two approvals that pinned different fingerprints lie in different periods of the endpoint |
| `HostKeyProofs.TwoKeysMeanAReset` | internal/store/endpoints.go:174-213 | two first connections returned on different keys of one endpoint: the run contains a clear or a move of it |
| `HostKeyProofs.PeriodStands` | internal/store/endpoints.go:215-222 | only a clear or a move ends a period, and within one a pin never changes |
| `HostKeyProofs.FirstPinWins` | internal/store/endpoints.go:174-213 | once pinned, every later successful approval without a reset carries the pinned fingerprint |
| `HostKeyProofs.ObservedKeyIsFixed` | internal/sshx/hostkey.go:205-220 | a connection's observed key never changes and a rekey with another key ends it |
| `HostKeyProofs.KeyExchangeSays` | internal/sshx/hostkey.go:198-240 | what each key exchange does to the connection, in every case |
| `HostKeyProofs.ApprovalSays` | internal/sshx/webauthn_signer.go:98-137 | an approval goes on to pin exactly a new, unpinned key |
| `HostKeyProofs.PinSays` | internal/store/endpoints.go:180-198 | the pin statement writes exactly a free row at the address dialled |
| `HostKeyProofs.PinSelectSays` | internal/store/endpoints.go:199-212 | the second statement accepts exactly this fingerprint at this address |
| `HostKeyProofs.EstablishSays` | internal/sshx/transport.go:252-256 | returned unless the key is new and unpinned |
| `HostKeyProofs.RowStepsSay` | internal/store/endpoints.go:123-222 | what a clear, a move and an entered pin do to a row |
| `HostKeyWitness.BothGetThrough` | internal/sshx/transport.go:252-256 | a run in which a first connection and a later one are both returned |
| `HostKeyObjects.HostKeyState.Verify` | internal/sshx/hostkey.go:198-240 | a key seen before must be the same; without a pin the first is new; with one it is accepted exactly on key equality, or fingerprint equality when only that is pinned |
| `HostKeyObjects.HostKeyState.Established` | internal/sshx/transport.go:252-256 | fails exactly on a provisional key no approval pinned |
| `HostKeyObjects.Endpoints.PinHostKey` | internal/store/endpoints.go:180-213 | success exactly when the write landed on an unpinned row at this address or the second statement finds this fingerprint there, whatever other statements did in between; each error exactly when its cause holds; an existing pin is never replaced |
| `HostKeyObjects.Endpoints.Update` | internal/store/endpoints.go:127-135 | a change of address drops the pin in the same statement; other rows unchanged |
| `HostKeyObjects.Endpoints.ClearHostKey` | internal/store/endpoints.go:217-222 | clears an owned pin, and says whether there was one |
| `KeyedMutex.MutualExclusion` | internal/hydra/cimd_resolver.go:277-300 | no two goroutines hold one key, however entries come and go |
| `KeyedMutex.RefsAreUsers` | internal/hydra/cimd_resolver.go:277-300 | an entry counts exactly the goroutines waiting for, holding or releasing its key |
| `KeyedMutex.MapIsInFlight` | internal/hydra/cimd_resolver.go:260-266 | the map holds exactly the keys in flight and is empty when nobody is inside |
| `KeyedMutex.ReleasesItsOwn` | internal/hydra/cimd_resolver.go:292-299 | the delete by key always hits the releaser's own entry |
| `KeyedMutex.WaiterHasHolder` | internal/hydra/cimd_resolver.go:281-300 | a waiter's lock is free or held by a goroutine that can unlock it |
| `KeyedMutex.Contention` | internal/hydra/cimd_resolver.go:281-300 | a run in which one goroutine holds a key, another waits on the same entry, and the release lets it in |
| `KeyedMutex.EntryTable.Reference` | internal/hydra/cimd_resolver.go:282-289 | one more reference to the key's entry, made if nobody has it; others untouched |
| `KeyedMutex.EntryTable.Release` | internal/hydra/cimd_resolver.go:294-298 | one reference less, and the entry leaves the map with the last |
| `LastUsed.RefinesWriteThrough` | internal/store/lastused.go:45-80 | looking through dirty map and batch to the table is write-through, for every account whose newest write did not fail |
| `LastUsed.StoredNeverBackwards` | internal/store/lastused.go:72-80 | stored timestamps never go back or disappear, failed writes or not |
| `LastUsed.NothingAfterClose` | internal/store/lastused.go:54-96 | after a closing flush returned no row is written and no touch accepted, in any interleaving |
| `LastUsed.CloseStoresAll` | internal/store/lastused.go:82-96 | from then on each account holds its last accepted touch, unless the database refused that write |
| `LastUsed.ThroughIsLastTouch` | internal/store/lastused.go:45-52 | the write-through table holds exactly the last accepted touch of each account |
| `LastUsed.BatchAlone` | internal/store/lastused.go:72-80 | a writer left alone finishes its batch, and the table is what the object's write loop makes of it |
| `LastUsed.FlushAlone` | internal/store/lastused.go:58-96 | a flush or closing flush that runs alone does what the object's does |
| `LastUsed.TouchSays` | internal/store/lastused.go:45-52 | a touch is what its account is then seen to hold, or nothing once closed |
| `LastUsed.LastUsedFlusher.TouchAccount` | internal/store/lastused.go:45-52 | recorded, or discarded once closed |
| `LastUsed.LastUsedFlusher.Write` | internal/store/lastused.go:72-80 | every row of the batch that does not fail is stored, in whatever order; nothing else changes |
| `LastUsed.LastUsedFlusher.Flush` | internal/store/lastused.go:58-70 | the dirty rows are stored and forgotten; nothing once closed |
| `LastUsed.LastUsedFlusher.CloseAndFlush` | internal/store/lastused.go:87-96 | the same, and closed |
| `RateLimit.WindowBound` | internal/ratelimit/ratelimit.go:50-89 | at most 2 * max - 1 allowed hits of a key in any half-open interval of one window, if none of its windows was cut short by a removal and (unless max is 1) none of its hits is older than the bucket it is counted in |
| `RateLimit.BucketBound` | internal/ratelimit/ratelimit.go:50-89 | no bucket allows more than max and the map never exceeds its cap, whatever the times and evictions |
| `RateLimit.BoundIsReached` | internal/ratelimit/ratelimit.go:58-88 | for every limit and every window of more than one tick, a run in order that reaches 2 * max - 1 |
| `RateLimit.StaleTimesBreakAnyBound` | internal/ratelimit/ratelimit.go:54-56 | for every limit from 2 on, every window and every n, a run of one client with stale clock readings and more than n hits allowed in one window |
| `RateLimit.SurvivesExactlyWhen` | internal/ratelimit/ratelimit.go:54-58 | the bound holds of all runs with arbitrary stale times if and only if max is 1 |
| `RateLimit.Limiter.Allow` | internal/ratelimit/ratelimit.go:50-89 | off when max <= 0; otherwise the hit is counted in the key's running bucket or a new one, is allowed exactly within max, and remaining and reset are that bucket's; the answer is the one the run theorems count |
| `RateLimit.Limiter.MakeRoom` | internal/ratelimit/ratelimit.go:59-79 | below 5000 buckets nothing; else a prune at most once a second, and besides expired buckets at most the one victim goes |
| `RateLimit.Limiter.Prune` | internal/ratelimit/ratelimit.go:65-69 | exactly the buckets whose window is over go |
| `Ephemeral.Store.PutTTL` | internal/ephemeral/store.go:147-160 | map and order slice together do what the insertion-ordered list does: replace in place, or evict the head when full and append |
| `Ephemeral.Store.Get` | internal/ephemeral/store.go:45-57 | the live value; an expired one is removed |
| `Ephemeral.Store.Consume` | internal/ephemeral/store.go:61-73 | the live value, and the key is gone either way |
| `Ephemeral.Store.DeleteLocked` | internal/ephemeral/store.go:131-142 | the key leaves both map and slice |
| `Ephemeral.Store.EvictOldestLocked` | internal/ephemeral/store.go:120-129 | the first key of the slice that is stored goes |
| `Ephemeral.Store.Sweep` | internal/ephemeral/store.go:90-103 | compaction inside the same slice keeps exactly the live entries in order |
| `Ephemeral.HeadIsDropped` | internal/ephemeral/store.go:120-129 | in every valid store the one that goes is the head |
| `EphemeralRuns.NeverOverCapacity` | internal/ephemeral/store.go:147-160 | keys distinct and a positive capacity respected in every reachable state |
| `EphemeralRuns.EvictsTheOldest` | internal/ephemeral/store.go:120-160 | a key is evicted only by a new key at capacity and only when every other stored key entered later; nobody else is lost or changed |
| `EphemeralRuns.AgainKeepsPlaces` | internal/ephemeral/store.go:156-159 | putting a known key again keeps every place in the queue |
| `EphemeralRuns.AnswersIgnoreSweeps` | internal/ephemeral/store.go:45-103 | every answer is that of a map nobody sweeps, looked up by expiry: sweeps and lazy removal are invisible |
| `EphemeralRuns.ConsumedOnce` | internal/ephemeral/store.go:59-73 | a put's value, once consumed, is never returned again by any Get or Consume |
| `EphemeralRuns.PutIsAnswered` | internal/ephemeral/store.go:45-73 | until its key is put, consumed, deleted or evicted again a put is answered exactly while its lifetime lasts, the store's own when none is given |
| `EphemeralRuns.GoneIsGone` | internal/ephemeral/store.go:59-80 | after a Consume or Delete nothing is answered until the next put |
| `EphemeralRuns.SweepSays` | internal/ephemeral/store.go:90-103 | a sweep takes out exactly what has expired |
| `AuditPages.EveryRowOnce` | internal/audit/sessions.go:64-128 | following the cursors returns every row of the account, endpoint and time range asked for that is present throughout exactly once and no other row, strictly descending, under any concurrent inserts and deletes and any limits, when matching rows have a timestamp and an id |
| `AuditPages.TraversalDescends` | internal/audit/sessions.go:80-90 | all pages together are strictly descending and below the starting cursor |
| `AuditPages.TraversalFinds` | internal/audit/sessions.go:80-90 | a row present throughout is on some page |
| `AuditPages.EndsOnlyIfReadBack` | internal/audit/sessions.go:174-187 | on an unchanging table a traversal that ends handed out only cursors with both halves non-empty |
| `AuditPages.UnchangedShowsAllOnce` | internal/audit/sessions.go:64-128 | on an unchanging table a traversal by one limit that ends shows every matching row exactly once, whatever its rows |
| `AuditPages.EmptyIdRestarts` | internal/audit/sessions.go:174-187 | a table on which the next cursor is unreadable |
| `AuditPages.SelectsAgree` | internal/audit/sessions.go:85-90 | the query has one answer: two selections from one table agree row by row |
| `AuditPages.LessMeans` | internal/audit/sessions.go:80-90 | text order: the first difference decides, a proper prefix comes first |
| `AuditPages.TwoPages` | internal/audit/sessions.go:64-128 | a traversal of two pages that shows both rows of a table |
| `AuditPages.Paginate` | internal/audit/sessions.go:189-198 | a prefix of what was fetched, a cursor exactly when something was cut, and then that of the last row shown |
| `AuditPages.List` | internal/audit/sessions.go:64-128 | for what the query selects below the decoded cursor, the page is the first rows of the selection up to the clamped limit, and has a cursor exactly when it does not show all of them |
| `AuditPages.ClampLimit` | internal/audit/sessions.go:144-152 | a limit in range is kept, one above it cut to the maximum, and none or a negative one is the default |
| `Framing.ChunksDoNotMatter` | internal/agentproxy/framing.go:54-68 | however the output is cut into writes, the messages are the successive frames of the whole stream, and the buffer holds its rest, never a whole frame |
| `Framing.OneMessageEach` | internal/agentproxy/framing.go:51-68 | payloads in, one message per payload out, nothing left over |
| `Framing.SmallFits` | internal/agentproxy/framing.go:54-68 | both hold whenever less than 2^32 bytes are written in all |
| `Framing.FramesRoundTrip` | internal/agentproxy/framing.go:51-68 | encoded payloads are read back as exactly those frames |
| `Framing.FramesAndRest` | internal/agentproxy/framing.go:54-68 | frames and rest are the stream again, and the rest holds no whole frame |
| `Framing.DrainIsFrames` | internal/agentproxy/framing.go:56-66 | below 2^32 bytes the loop sends exactly the frames, or on a failing socket exactly a prefix, and fails exactly when the socket does |
| `Framing.DrainConserves` | internal/agentproxy/framing.go:62-66 | nothing is lost or reordered, also on failure and also when lengths wrap |
| `Framing.StepAgreesExactlyWhen` | internal/agentproxy/framing.go:57-65 | one round of the 32-bit loop agrees with the stream exactly under the stated condition on lengths |
| `Framing.WrapSendsNothing` | internal/agentproxy/framing.go:57-65 | at 2^32 bytes a whole frame is never sent, only empty messages |
| `Framing.WsReadWriter.Write` | internal/agentproxy/framing.go:54-68 | the method is the loop on the buffer and the new bytes; 0 and an error exactly on failure |
| `Framing.WsReadWriter.Read` | internal/agentproxy/framing.go:33-49 | bytes come out in order, none lost or repeated; EOF exactly when a text message is met, after which nothing is read |
| `Framing.IncomingIsFlat` | internal/agentproxy/framing.go:33-49 | what comes in is the contents of the binary messages up to the first text message |

## Left out

- Router errors and lookups: "session not found" answers, account checks, input, resize and control messages of the WebSocket router carry no session output.
- JSON, base64, URL and signature encoding, SHA-256, the SSH handshake and WebAuthn verification: fingerprints are taken as injective and the handshake order as given.
- The cancellation fence of `Connect` (internal/sshx/transport.go:196-221) and its deadlines: one flag under one lock.
- The WebSocket writer's errors: frames are taken from the queue in order or stay there.
- Hub.Hub.OnOutput: one state of the session's entry serves the whole loop, where the source looks it up again for each connection; interleavings with other goroutines are in `Fanout`, connection by connection.
- Hub.Hub.OnStatusChange: the same.
- Hub.Hub.OnRemoved: the same.
- WsConn.Conn.FlushLocked: the entry is handed in as it is when read; the separate steps of lookup, read, record and send are in `Fanout`, and `FanoutObjects` ties the two.
- WsConn.Conn.CloseSession: the same.
- Real slices: `Ephemeral.Store` and `OutputRing.OutputBuffer` hold their buffers as sequence values, so sharing of a backing array with earlier slices is not modelled (the in-place compaction of `Sweep` reads and writes one buffer, as the source does).
- HTTP handlers around approvals: missing fields, user-verification and ownership checks, and the early 409 on an action that was looked up as no longer pending.
- Idle sweeps and janitor timers choose when a sweep runs; sweeps are steps that may run at any time.
- Delivery order of status hooks between goroutines, which the code does not promise, and completeness of audit rows, which depends on it.
- The signings half of the audit log pages by the same code with another cursor type.
- Soft deletion of endpoints, which leaves the row and its pin in place, and provisioning of pins from configuration beyond the compare-and-set it uses.
- Hydra clients, CIMD fetching, address tables, push delivery, migrations, configuration, logging and rendering.
