# x2rp: a verified model

x2rp publishes services behind a reverse proxy and reaches them through connectors. This
project models the parts of it where something can go wrong between two machines, between
two tasks, or between memory and disk, and proves what they guarantee. `dafny verify
dfyconfig.toml` checks everything.

**The tunnel protocol.** `FlowControl` is one direction of one tunnel: bytes and the credit
that paces them. `Tunnel` is the two-party protocol of one tunnel, with every await point of
the server's bridge and the connector's stream task as a step of its own, so timeouts, socket
errors, failed sends and session shutdown may fall anywhere. `TunnelInvariant` is its inductive
invariant. `Mux` puts any number of tunnels on the two shared first-in-first-out links and
shows that each session step is, for each tunnel, one of that tunnel's own steps or none.
`Delivery` and `Progress` draw the conclusions about every run, `Completion` shows that a
request and a response can always be brought to their end, `Fairness` is about endless weakly
fair runs, `Deadlock` shows exactly when flow control can deadlock, `OnTheWire` ties the
messages in flight to the codec's limits, and `Handlers` gives the two message handlers as classes
whose methods are proved to be the steps. Window, grant threshold and read chunk are
parameters with `threshold + chunk <= window + 1`; the values of the two binaries meet it.

**Concurrent objects.** `SendCredit` is the credit counter with its `Notify`, interleaved at
every atomic operation; `CreditRefinement` shows that it is the counter the tunnels use. `Slots` is the server's slot counter and pending connects, interleaved
at every lock and atomic operation, with any number of concurrent shutdowns. `Registry` is the
table of live sessions, with the second half of `register` outside the lock.

**Bytes.** `Utf8` and `Codec` are the wire format (UTF-8 as in section 4 of RFC 3629),
`Masking` and `Batch` the datagram masking under QUIC, in place on arrays; the keystream is any
function of IV and position.

**Server state.** `Admin` is the admin state in memory and on disk with the live route table,
`AdminApi` the handlers that work on it; `Certs` the two certificate files under crashes;
`RateLimit` the per-client limiter table; `Sessions` the admin sessions. `SecureFile` names the
outcomes of a file save and `Wrappers` holds the shared option type.

Time, randomness, the network, `validate_target`, the certificate authority and the outcome of
each write are parameters or steps that may go either way.

## Where the code and its own words differ

- `remove_stream` is documented to fail a pending connect so that a late ConnectOk cannot start
  the stream (crates/server/src/connector_manager.rs:113-114). `shutdown` drains `pending`
  before `streams`, so a bridge that registers in between can be swept and started afterwards.
  `Slots.LateStartIff` gives the exact condition and `Slots.ShutdownRace` a run.
- Rolled-back handlers say memory matches disk again (crates/server/src/api/resources.rs:331,
  crates/server/src/api/connectors.rs:209). `save_secure_file` can fail after its rename, and
  then the disk holds what memory has undone. `Admin.AgreesIff` gives the exact condition and
  `Admin.FailedCreateReturns` a run that ends with the "failed" resource being served.
- `SendCredit::close` promises that any current acquire returns false
  (crates/proto/src/lib.rs:384). An acquire that has passed its closed check may still take
  credit and return true. `SendCredit.CloseRaceIff` gives the exact condition,
  `SendCredit.CloseRace` a run; acquires begun after the close never return true
  (`SendCredit.ClosedRefuses`).
- `acquire` asks for at most the initial window (crates/proto/src/lib.rs:391-392). That is not
  enough: `Deadlock.NoDeadlockIff` shows that some run deadlocks if and only if the chunk
  exceeds window - threshold + 1. The configured chunk does not
  (`Deadlock.ConfiguredNeverDeadlocks`).

## Model

| member | source | states |
|---|---|---|
| `FlowControl.GrantInv` | crates/proto/src/lib.rs:374-382 | A grant that is accounted for is added in full: the ceiling in `add` never cuts it |
| `FlowControl.DrainInv` | crates/server/src/connector_manager.rs:244-257 | Counting a drained chunk moves its bytes into the counter or a grant, and the cast of the grant to 32 bits is exact |
| `FlowControl.WithinWindow` | crates/server/src/connector_manager.rs:297-299 | What is in flight or undrained never exceeds the window |
| `FlowControl.SinkIsPrefix` | crates/server/src/connector_manager.rs:236-258 | Bytes written are an in-order prefix of bytes read |
| `FlowControl.SinkIsComplete` | crates/server/src/connector_manager.rs:236-259 | With nothing in flight, queued or lost, everything read has been written |
| `FlowControl.QuietHasCredit` | crates/proto/src/lib.rs:390-417 | When nothing is moving, the credit covers any chunk, since fewer than `threshold` bytes are ungranted |
| `TunnelInvariant.ServerGetsFlows` | crates/server/src/connector_manager.rs:276-325 | Each message the server handles keeps both directions' byte and credit accounts |
| `TunnelInvariant.ServerGetsHandshake` | crates/server/src/connector_manager.rs:276-325 | Each message the server handles keeps the order of the handshake |
| `TunnelInvariant.ConnectorGetsFlows` | crates/connector/src/session_manager.rs:56-86 | Each message the connector handles keeps both directions' accounts |
| `TunnelInvariant.ConnectorGetsHandshake` | crates/connector/src/session_manager.rs:56-126 | Each message the connector handles keeps the order of the handshake |
| `TunnelInvariant.UploadFlows` | crates/server/src/connector_manager.rs:206-234 | Every step of the server's upload pump keeps the accounts |
| `TunnelInvariant.DownloadFlows` | crates/server/src/connector_manager.rs:236-264 | Every step of the server's download pump keeps the accounts, `recv_outstanding` included |
| `TunnelInvariant.RespondFlows` | crates/connector/src/session_manager.rs:171-193 | Every step of the connector's download pump keeps the accounts |
| `TunnelInvariant.ForwardFlows` | crates/connector/src/session_manager.rs:194-216 | Every step of the connector's upload pump keeps the accounts |
| `TunnelInvariant.BridgeHandshake` | crates/server/src/connector_manager.rs:163-202 | Connect, its answer, its timeout, giving up and both halves of shutdown keep the handshake in order |
| `TunnelInvariant.DialControl` | crates/connector/src/session_manager.rs:137-168 | Dialling, refusing, answering and being aborted keep the control invariant |
| `TunnelInvariant.NoDataWhileDialing` | crates/connector/src/session_manager.rs:140-149 | The branch that discards upload data before the backend is up is never enabled |
| `TunnelInvariant.ServerHeeds` | crates/server/src/connector_manager.rs:276-326 | Each message the server handles takes effect: nothing that was sent is both off the link and without effect |
| `TunnelInvariant.ConnectorHeeds` | crates/connector/src/session_manager.rs:56-126 | The same of each message the connector handles |
| `TunnelInvariant.ActHeeded` | crates/server/src/connector_manager.rs:163-272 | Every step of either task keeps what was sent on the link until it takes effect |
| `TunnelInvariant.StepInv` | crates/server/src/connector_manager.rs:163-326 | Every step of either end of a tunnel, every message and every failure keep the invariant |
| `Mux.SessionRefinesTunnel` | crates/server/src/connector_manager.rs:276-326 | Whatever the session does, each tunnel takes one of its own protocol steps or stands still |
| `Mux.EntriesAfter` | crates/connector/src/session_manager.rs:88-125 | The connector's stream map never exceeds the cap |
| `Mux.StepInv` | crates/connector/src/session_manager.rs:54-126 | Every step of a session with any number of tunnels keeps every tunnel's invariant |
| `Mux.ConnectAcceptedIff` | crates/connector/src/session_manager.rs:88-125 | A Connect is accepted exactly when fewer tasks than the cap are still running; finished ones give their entries back first and no other is touched |
| `Delivery.RunInv` | crates/server/src/connector_manager.rs:151-326 | Every state of every run of a session satisfies the session invariant |
| `Delivery.BytesInOrder` | crates/server/src/connector_manager.rs:204-272 | In every run and both directions of every tunnel, bytes out are an in-order prefix of bytes in |
| `Delivery.ResponseDelivered` | crates/server/src/connector_manager.rs:320-323 | A tunnel removed by the connector's Close whose download drained its queue gave the client every byte read from the backend |
| `Delivery.RequestDelivered` | crates/connector/src/session_manager.rs:69-74 | A request whose EOF arrived and whose upload drained its queue gave the backend every byte read from the client |
| `Delivery.NoEarlyUpload` | crates/connector/src/session_manager.rs:140-149 | While the connector dials, no upload byte is queued or on the way, in any run |
| `Delivery.CreditConserved` | crates/proto/src/lib.rs:374-417 | On a stream both ends know, half-closed or not, credit, acquired bytes, Data in transit, undrained bytes, the drained counter and grants add up to exactly one window, in each direction |
| `Delivery.WindowNeverExceeded` | crates/server/src/connector_manager.rs:297-313 | An honest peer is never reset for flow control, `recv_outstanding` stays within 0 and the window, and neither queue holds more than a window |
| `Delivery.GrantsAreExact` | crates/server/src/connector_manager.rs:314-319 | A WindowUpdate that reaches a live stream raises the credit by exactly its bytes |
| `Delivery.EofTakesEffect` | crates/server/src/connector_manager.rs:320-323 | In every run a response end that was sent is on the link or has taken the stream out of the server's map; a request end is on the link or has closed the connector's queue |
| `Delivery.AnswerTakesEffect` | crates/server/src/connector_manager.rs:278-287 | In every run an answer to Connect that was sent is on the link or has decided the connect, and a connect is decided exactly when its bridge has an answer |
| `Delivery.ResetTakesEffect` | crates/connector/src/session_manager.rs:75-78 | In every run a Reset that was sent is on the link or the connector has dropped the stream |
| `Delivery.RemovedIsTornDown` | crates/server/src/connector_manager.rs:113-124 | In every run a stream out of the server's map has its credit closed, its upload can stop waiting, and no connect is pending unless a shutdown swept it |
| `Delivery.StepSince` | crates/server/src/connector_manager.rs:113-124 | No step rewrites a tunnel's bytes, connect outcome, removal cause or end |
| `Delivery.HistoriesGrow` | crates/server/src/connector_manager.rs:113-124 | Over every run a connect is decided once, a stream removed once, and bytes are only appended |
| `Progress.DrainLowersRank` | crates/server/src/connector_manager.rs:239-258 | Taking, writing, counting or granting a chunk lowers the work left |
| `Progress.TunnelRank` | crates/server/src/connector_manager.rs:204-272 | A delivery or drain of the parked direction lowers its work left, any other step of the tunnel leaves it |
| `Progress.RankNeverRises` | crates/proto/src/lib.rs:390-417 | No step of any tunnel raises the lexicographic rank of a parked direction, and every helping step lowers it |
| `Progress.HelpIsEnabled` | crates/proto/src/lib.rs:390-417 | While a sender is parked on a live stream some delivery, drain or grant step is enabled |
| `Progress.SenderIsFreed` | crates/proto/src/lib.rs:390-417 | Finitely many such steps bring every parked sender to where it can proceed or its stream is no longer live |
| `Progress.EndDelivers` | crates/server/src/connector_manager.rs:236-272 | Once the end of a direction has arrived, finitely many enabled steps of its own pump write everything that was read |
| `Completion.ResponseCanFinish` | crates/connector/src/session_manager.rs:171-193 | From every state of a live tunnel, once the backend ends, some steps of the session bring every byte read from it to the client and end the download |
| `Completion.RequestCanFinish` | crates/connector/src/session_manager.rs:194-216 | The same for the client's end and the backend |
| `Completion.ClientErrorResets` | crates/server/src/connector_manager.rs:217-263 | A client whose socket fails is not taken for one that has finished: a Reset goes out and the stream is removed |
| `Completion.GiveUpResets` | crates/server/src/connector_manager.rs:196-202 | Giving up on a connect removes the stream and sends a Reset |
| `Completion.AnswerDecides` | crates/server/src/connector_manager.rs:187-202 | An Ok splices, an error or a timeout gives up |
| `Completion.DialSucceeds` | crates/connector/src/session_manager.rs:161-168 | A dial that succeeds sends ConnectOk and starts both pumps |
| `Completion.DialFails` | crates/connector/src/session_manager.rs:137-159 | A dial that fails or is abandoned sends ConnectErr and ends the task |
| `Completion.RefusalIsSent` | crates/connector/src/session_manager.rs:94-104 | A Connect at the cap sends ConnectErr and makes no entry |
| `Completion.ViolationResets` | crates/server/src/connector_manager.rs:297-309 | A peer that sends more than a window loses the stream, its bytes are dropped, and a Reset goes out |
| `Completion.ShutdownEnds` | crates/server/src/connector_manager.rs:82-95 | The two halves of `shutdown` leave no connect pending, no stream registered and no credit open |
| `Fairness.AgentStaysAble` | crates/server/src/connector_manager.rs:236-326 | A read loop or pump that can help a stuck sender stays able to until it acts |
| `Fairness.FairRunsFree` | crates/proto/src/lib.rs:390-417 | In every endless run whose read loops, and receiving pump while the stream is live, are weakly fair, every stuck sender comes to proceed or its stream ends |
| `Fairness.ClosingStep` | crates/server/src/connector_manager.rs:236-272 | Once a direction's end has arrived no other step adds to it, and every step of its pump that does not fail leaves less to do |
| `Fairness.FairRunsDeliver` | crates/server/src/connector_manager.rs:236-272 | In every endless run with a weakly fair pump that no error or end of the task interrupts, everything read before the end comes to be written |
| `Deadlock.BytesDrained` | crates/server/src/connector_manager.rs:236-257 | A run connects a tunnel and drains any number of bytes below the threshold without a grant |
| `Deadlock.NoDeadlockIff` | crates/proto/src/lib.rs:390-417 | Some run ends with a sender parked on a live stream and no helping step, and no continuation in which it ever takes its credit, if and only if the chunk exceeds window - threshold + 1 |
| `Deadlock.ConfiguredNeverDeadlocks` | crates/proto/src/lib.rs:30-44 | With the constants of the two binaries no reachable state is such a deadlock |
| `OnTheWire.EveryMessageTravels` | crates/proto/src/lib.rs:207-246 | In every run with the configured constants no message the two ends send is refused by the encoder |
| `Handlers.ConnectorManager.OpenTunnel` | crates/server/src/connector_manager.rs:126-176 | Refused exactly at the cap and then nothing changes; else one slot is taken and the stream opened, and no other stream is touched |
| `Handlers.ConnectorManager.Register` | crates/server/src/connector_manager.rs:163-176 | A fresh stream is pending and registered with full credit, as the protocol's opening state |
| `Handlers.ConnectorManager.RemoveStream` | crates/server/src/connector_manager.rs:115-124 | Idempotent: slot freed once, credit closed, a pending connect failed, no other stream touched |
| `Handlers.ConnectorManager.HandleData` | crates/server/src/connector_manager.rs:288-313 | Is the protocol's Data step: unknown stream, window violation, dead queue or queued |
| `Handlers.ConnectorManager.HandleMessage` | crates/server/src/connector_manager.rs:276-326 | On any message is the protocol's step for that stream and changes no other. In so many words: Close and Reset take the stream out of the map, close its credit, free its slot and fail a pending connect; ConnectOk and ConnectErr decide a pending connect; WindowUpdate raises the credit up to the window; Data is counted and queued, or ends the stream |
| `Handlers.ConnectorManager.Shutdown` | crates/server/src/connector_manager.rs:82-95 | Every pending connect fails, every stream goes with its credit closed, the counter is zero |
| `Handlers.SessionManager.Kept` | crates/connector/src/session_manager.rs:89-93 | Reaping only shrinks the map and drops a duplicate of the stream being opened |
| `Handlers.ConnectedIsStep` | crates/connector/src/session_manager.rs:88-125 | Reaping and opening together are the session's step on a Connect |
| `Handlers.SessionManager.HandleConnect` | crates/connector/src/session_manager.rs:88-125 | Reaps, refuses with ConnectErr at the cap, else starts the stream with a full window; on a fresh stream it leaves every tunnel, the reaped ones too, as the session's step does |
| `Handlers.SessionManager.HandleMessage` | crates/connector/src/session_manager.rs:56-86 | On any other message is the protocol's step for that stream and changes no other. In so many words: Close closes the request queue and keeps the entry; Reset drops the entry; WindowUpdate raises the credit up to the window; Data is queued while the queue is open |
| `SendCredit.StepInv` | crates/proto/src/lib.rs:374-417 | Every atomic operation of any number of calls keeps the object's invariant, and closed stays closed |
| `SendCredit.NoLostWakeup` | crates/proto/src/lib.rs:393-416 | An acquirer parked and unwoken while its credit is there or the object is closed implies an add or close between its store and its notify |
| `SendCredit.NotifyFreesEveryone` | crates/proto/src/lib.rs:372-388 | When such a notify happens every parked acquirer can move |
| `SendCredit.Ledger` | crates/proto/src/lib.rs:362-382 | Credit stays within zero and the window, and total acquired never exceeds window plus granted |
| `SendCredit.ClosedRefuses` | crates/proto/src/lib.rs:384-398 | An acquire begun after close never returns true, and only a closed credit refuses |
| `SendCredit.CloseRaceIff` | crates/proto/src/lib.rs:384-407 | On a closed credit an acquire still under way can come to return true if and only if it is about to try the credit and asks for no more than the window |
| `SendCredit.CloseRace` | crates/proto/src/lib.rs:393-407 | A run in which that happens |
| `SendCredit.CloseLeavesNoneParked` | crates/proto/src/lib.rs:351-353 | After the closing notify every acquire under way can move and each operation brings it closer to returning |
| `CreditRefinement.StepProjects` | crates/proto/src/lib.rs:374-417 | Every atomic operation is one operation of a plain counter; an acquire returns true exactly by a take of what it asked for, false exactly by a refusal |
| `CreditRefinement.RunProjects` | crates/proto/src/lib.rs:374-417 | Every step of every run of the object is the named operation of that counter, and the acquires under way answer by it |
| `CreditRefinement.PumpUsesCounter` | crates/server/src/connector_manager.rs:222-231 | A tunnel's pump takes or is refused exactly when the counter allows it, with the same credit left |
| `Slots.StepInv` | crates/server/src/connector_manager.rs:82-149 | Every lock or atomic operation of bridges, read loop and shutdowns keeps slots and outcomes in order |
| `Slots.SlotsAccounted` | crates/server/src/connector_manager.rs:97-149 | Before any shutdown the counter is exactly registered streams, reserved bridges and unreleased removals, and within the cap |
| `Slots.NoSlotLeaks` | crates/server/src/connector_manager.rs:82-111 | Under any shutdowns the counter stays within the cap, and with none half-way never exceeds the bridges, entries and removals that owe a slot |
| `Slots.EndedHasReturned` | crates/server/src/connector_manager.rs:126-149 | A bridge that is over, with no removal of it under way, has given its slot back, unless a shutdown dropped it |
| `Slots.SettledForever` | crates/server/src/connector_manager.rs:106-124 | A slot released or dropped stays so over every run |
| `Slots.OnlyOnce` | crates/server/src/connector_manager.rs:106-124 | No run releases a slot twice, whatever shutdowns do |
| `Slots.ReleasedOnce` | crates/server/src/connector_manager.rs:106-149 | Of every bridge that has ended before any shutdown exactly one step gave the slot back, and it took exactly one off the counter |
| `Slots.FirstEventWins` | crates/server/src/connector_manager.rs:113-124 | A bridge splices only if ConnectOk came before ConnectErr, removal or failing shutdown; announced clear of half-way shutdowns, before anything at all |
| `Slots.AnswerWaits` | crates/server/src/connector_manager.rs:113-124 | In every run a bridge that still listens is pending or has its answer waiting, Ok exactly when ConnectOk came first; once anything has happened only a removal under way in the read loop still owes it |
| `Slots.LateStartIff` | crates/server/src/connector_manager.rs:82-95 | A bridge can come to splice a stream that was swept first if and only if it registers while some shutdown has drained `pending` and not `streams` |
| `Slots.ShutdownRace` | crates/server/src/connector_manager.rs:163-176 | A run in which that happens |
| `Registry.StepInv` | crates/server/src/connector_manager.rs:375-406 | Every half of register, unregister and teardown keeps the registry's invariant |
| `Registry.EveryManagerAccounted` | crates/server/src/connector_manager.rs:376-386 | A manager ever registered is current, shut down, or owed a shutdown by the register that replaced it; registered once, exactly one of these |
| `Registry.TeardownSparesReplacement` | crates/server/src/connector_manager.rs:388-399 | A replaced session's teardown changes nothing; the current manager stays and is not shut down |
| `Registry.TeardownEnds` | crates/server/src/connector_manager.rs:388-399 | In every run a teardown ends its session: not current afterwards, shut down if it was, every other connector's entry unchanged, and later current only if registered anew |
| `Registry.RemoveEnds` | crates/server/src/connector_manager.rs:402-406 | In every run `unregister` leaves the connector without a manager, the one it had shut down, and every other manager current |
| `Registry.ReplacedIsShut` | crates/server/src/connector_manager.rs:376-386 | What has been shut down stays shut down over every run |
| `Registry.NeverReturns` | crates/server/src/connector_manager.rs:388-406 | A manager that stopped being current never is again unless it is registered anew |
| `Registry.ConnectorRegistry.Register` | crates/server/src/connector_manager.rs:376-386 | For any manager, new or not: the two steps with the lock free between them, ending with it current, whoever it replaced shut down, and every other connector's entry as it was |
| `Registry.ConnectorRegistry.UnregisterManager` | crates/server/src/connector_manager.rs:390-399 | Afterwards the manager is not current, and shut down if it was; one that was not current changes nothing; every other connector's entry is as it was |
| `Registry.ConnectorRegistry.Unregister` | crates/server/src/connector_manager.rs:402-406 | Removes and shuts down whichever manager the connector has, and nothing else |
| `Utf8.BoundaryIffValidPrefix` | crates/proto/src/lib.rs:224-227 | In well-formed text a cut leaves well-formed text on the left exactly at character boundaries |
| `Utf8.BoundaryIffByte` | crates/proto/src/lib.rs:225 | In well-formed text a boundary is exactly a position whose byte is not a continuation byte |
| `Utf8.CharIs` | crates/proto/src/lib.rs:194-204 | What is taken for one character is the encoding of a scalar value |
| `Utf8.CharBytesRead` | crates/proto/src/lib.rs:194-204 | The encoding of every scalar value is taken for one character, whatever follows |
| `Utf8.ValidIs` | crates/proto/src/lib.rs:194-204 | Bytes are text exactly when they are the encodings of some scalar values one after the other |
| `Utf8.CutLen` | crates/proto/src/lib.rs:225 | The longest beginning within the limit that is well-formed text |
| `Utf8.CutIsNear` | crates/proto/src/lib.rs:225 | Text within the limit is not cut, longer text loses at most three of the bytes that would fit |
| `Utf8.FloorCharBoundary` | crates/proto/src/lib.rs:225 | Scanning back over continuation bytes finds exactly that longest well-formed beginning |
| `Codec.BodyIs` | crates/proto/src/lib.rs:207-246 | The encoding of every message as literal bytes: type byte, big-endian id, length and payload |
| `Codec.FitsIs` | crates/proto/src/lib.rs:175-246 | The limits in bytes: target 2048, error 1024, payload 131072, token 1 to 512 |
| `Codec.PrefixFree` | crates/proto/src/lib.rs:207-246 | No encoding is a beginning of another, so a body stands for one message |
| `Codec.BodyIsSound` | crates/proto/src/lib.rs:265-310 | An encoding has no fault, and with bytes after it the fault is exactly trailing bytes |
| `Codec.ReadsIsBody` | crates/proto/src/lib.rs:265-310 | Canonical: a body without fault is the encoding of the message read from it |
| `Codec.CutIsTight` | crates/proto/src/lib.rs:224-227 | A message that fits is sent unchanged, a cut error keeps all but at most three bytes of the limit |
| `Codec.Writer.PutStr` | crates/proto/src/lib.rs:175-186 | Appends length and text exactly when the length is within its limits |
| `Codec.Writer.EncodeInto` | crates/proto/src/lib.rs:207-246 | Appends the encoding of the message, a long error cut, exactly when it fits |
| `Codec.Encode` | crates/proto/src/lib.rs:248-253 | Gives the encoding, or refuses exactly the messages over their limits |
| `Codec.Cursor.GetU32` | crates/proto/src/lib.rs:188-192 | Takes four bytes as a big-endian number or reports truncation |
| `Codec.Cursor.GetStr` | crates/proto/src/lib.rs:194-204 | Takes a length-prefixed text, with the fault that applies first |
| `Codec.Decode` | crates/proto/src/lib.rs:264-310 | Succeeds exactly on encodings, with the message encoded, and otherwise names the first fault |
| `Codec.RoundTrip` | crates/proto/src/lib.rs:207-310 | What is encoded and decoded is the message sent, for every message that is not refused |
| `Codec.ControlIsFramable` | crates/proto/src/lib.rs:67-68 | Every message but Data is within the frame limit |
| `Codec.Frame` | crates/proto/src/lib.rs:255-262 | Prefixes the encoding with its length |
| `Codec.FramesPrefixFree` | crates/proto/src/lib.rs:255-262 | Two frames that start the same bytes are the same |
| `Codec.ReadFrame` | crates/proto/src/lib.rs:313-325 | Takes one frame off the stream exactly when a frame within the limit is there |
| `Codec.ReadFrames` | crates/proto/src/lib.rs:313-325 | Frames written back to back are read back as the same messages in order, leaving the stream just after them |
| `Masking.EffectiveSegment` | crates/proto/src/obfs.rs:70-75 | The segment size is at least one and at most the payload |
| `Masking.EncodeTransmit` | crates/proto/src/obfs.rs:77-110 | Produces the wire image cut at the effective size: the output is as long as the payload and one IV a segment, each segment is its IV followed by every payload byte xor the keystream at its position, and the stride is announced exactly when there is more than one segment |
| `Masking.MaskedAt` | crates/proto/src/obfs.rs:77-110 | Byte for byte: where each payload byte is in the wire image and what it is xored with |
| `Masking.ReadableIs` | crates/proto/src/obfs.rs:112-133 | A datagram is readable exactly when every segment of it has a whole IV and something after it |
| `Masking.OpenSegment` | crates/proto/src/obfs.rs:135-143 | Opens one segment in place and leaves everything after it untouched |
| `Masking.DecryptMetaPayload` | crates/proto/src/obfs.rs:112-152 | Succeeds exactly on readable datagrams and then leaves at the front, byte for byte, every body byte xor the keystream of its own segment's IV, without touching an unread byte |
| `Masking.UnmaskedAt` | crates/proto/src/obfs.rs:135-143 | Byte for byte: where each opened byte came from and what it was xored with |
| `Masking.UnmaskedLen` | crates/proto/src/obfs.rs:112-152 | The opened datagram is shorter by exactly one IV a segment |
| `Masking.RoundTrip` | crates/proto/src/obfs.rs:77-152 | Opening a wire image at the matching stride gives the payload back |
| `Masking.ImageReadable` | crates/proto/src/obfs.rs:112-133 | The receiver refuses no segment of a wire image |
| `Masking.TransmitSurvives` | crates/proto/src/obfs.rs:77-152 | Every non-empty transmit opens to its payload, length and segment size; the stride on the wire is the segment size plus the IV whenever the size is positive and less than the payload |
| `Batch.AcceptedIsTheFilter` | crates/proto/src/obfs.rs:202-215 | The accepted positions ascend and none that opens is missing |
| `Batch.Promote` | crates/proto/src/obfs.rs:207-210 | The two swaps and the copy add the opened datagram to the front beside its own meta |
| `Batch.Compact` | crates/proto/src/obfs.rs:202-215 | The first `valid` buffers and metas are exactly the accepted datagrams in arrival order, paired, and no buffer is lost |
| `Admin.NormalizedIsStorable` | crates/server/src/api/resources.rs:30-52 | A normalised subdomain that passes validation is a lower-case label and not reserved |
| `Admin.StorableIs` | crates/server/src/api/resources.rs:30-52 | A stored subdomain is 1 to 63 lower-case letters, digits and inner hyphens, and not reserved |
| `Admin.TrimIs` | crates/server/src/api/resources.rs:24-32 | Trimming takes white space off both ends and nothing else |
| `Admin.NormalizedIs` | crates/server/src/api/resources.rs:24-28 | A connector id is dropped exactly when it is all white space, else trimmed |
| `Admin.LowerIs` | crates/server/src/api/resources.rs:30-32 | Only ASCII capitals change, each to its small letter |
| `Admin.FqdnIs` | crates/server/src/proxy.rs:280-282 | A stored subdomain is served under itself, a dot and the lower-case domain |
| `Admin.FqdnInjective` | crates/server/src/proxy.rs:280-282 | Two subdomains share a host exactly when they are equal ignoring case |
| `Admin.CreateInv` | crates/server/src/api/resources.rs:202-229 | A create, saved or failed, keeps state and routes consistent |
| `Admin.UpdateInv` | crates/server/src/api/resources.rs:287-312 | An update from a stale read, saved or failed, keeps state and routes consistent |
| `Admin.DeleteInv` | crates/server/src/api/resources.rs:323-338 | A delete, saved or failed, keeps state and routes consistent |
| `Admin.ConnectorsInv` | crates/server/src/api/connectors.rs:70-249 | Connector creation, deletion, token renewal and preference keep every resource's connector in place |
| `Admin.LoadedRoutes` | crates/server/src/main.rs:199-207 | The boot-time load on top of routes already published leaves exactly one right route per enabled resource |
| `Admin.StepInv` | crates/server/src/api/resources.rs:188-339 | Every handler, the boot load and a restart keep the invariant |
| `Admin.RouteAgreement` | crates/server/src/api/resources.rs:158-166 | Once booted, in every run, a host is routed exactly when an enabled resource has it, with that resource's subdomain, target, connector and client list, and never the admin's own names |
| `Admin.StateIntegrity` | crates/server/src/api/resources.rs:206-226 | In every run, in memory and on disk, names are distinct ignoring case, every named connector exists and every target was validated with its connector |
| `Admin.AgreesIff` | crates/server/src/api/mod.rs:147-164 | From agreement, memory and disk agree after an operation exactly when its save did not fail after renaming a changed file into place |
| `Admin.RunAgrees` | crates/server/src/api/resources.rs:330-335 | Where no save fails that way, memory and disk agree after every operation of every run, rolled-back ones included |
| `Admin.FailedCreateReturns` | crates/server/src/api/resources.rs:222-226 | A run in which a create that reported failure is served after a restart |
| `AdminApi.WithoutFresh` | crates/server/src/api/resources.rs:223 | Retaining all ids but the new one undoes the push |
| `AdminApi.Api.Save` | crates/server/src/api/mod.rs:105-109 | Leaves the file as it was or replaces it by the whole state, and succeeds only when synced |
| `AdminApi.Api.PublishResource` | crates/server/src/api/resources.rs:158-166 | An enabled resource is served at its host with its own subdomain, target, connector and clients, a disabled one is not, and no other host changes |
| `AdminApi.Api.CreateResource` | crates/server/src/api/resources.rs:188-230 | Is the create step on the normalised request. Succeeds exactly when label, clients and target are good, no other resource has the name, the connector exists and the save succeeded; then the resource is the last one, in memory and on disk, else memory is unchanged |
| `AdminApi.Api.BeginUpdate` | crates/server/src/api/resources.rs:251-285 | Succeeds exactly for a known id with good new fields and a validated target; field by field, what the request gives is taken, normalised, and what it does not is the stored one |
| `AdminApi.Api.Replace` | crates/server/src/api/resources.rs:288-311 | The part under the lock: replaced and republished, or put back exactly, with the error that applies first |
| `AdminApi.Api.FinishUpdate` | crates/server/src/api/resources.rs:287-312 | Is the update step. Succeeds exactly when no other resource has the name, the connector and the resource still exist and the save succeeded; then that resource alone is replaced, in memory and on disk, else memory is unchanged |
| `AdminApi.Api.Withdraw` | crates/server/src/api/resources.rs:323-338 | The part under the lock: taken out and unrouted, or put back where it was, with the error that applies |
| `AdminApi.Api.DeleteResource` | crates/server/src/api/resources.rs:315-339 | Is the delete step: exactly that resource gone from memory, disk and routes, or reinserted where it was |
| `AdminApi.Api.CreateConnector` | crates/server/src/api/connectors.rs:60-96 | Succeeds exactly with a good, unused name and a successful save; then exactly that connector is added, else none |
| `AdminApi.Api.UpdateConnector` | crates/server/src/api/connectors.rs:130-158 | Is the preference step: only `force_wss` of that connector changes, and it stays in memory even when it was not saved |
| `AdminApi.Api.DeleteConnector` | crates/server/src/api/connectors.rs:192-216 | Succeeds exactly for a known connector no resource uses and a successful save; then exactly that one is gone, else none |
| `AdminApi.Api.RegenerateToken` | crates/server/src/api/connectors.rs:227-248 | Is the token step: only the hash of that connector changes and is saved, or the old one is back |
| `AdminApi.Api.LoadRoutes` | crates/server/src/main.rs:189-208 | Is the boot step |
| `Certs.StaleIs` | crates/server/src/tls.rs:39-62 | A certificate is due for renewal exactly when less than thirty days are left |
| `Certs.CheckInv` | crates/server/src/tls.rs:57-68 | A certificate that is not renewed has its own key beside it |
| `Certs.StepInv` | crates/server/src/tls.rs:57-112 | Every write, failed write, failed sync, crash and reload keeps the invariant |
| `Certs.CrashSafe` | crates/server/src/tls.rs:105-110 | From an empty directory, whatever a crash leaves is no certificate, one due for renewal, or one that matches the key beside it |
| `Certs.EnsuredPairLoads` | crates/server/src/tls.rs:315-335 | After a successful `ensure_certs` the pair loads, what is served always matches, and a failed reload keeps it |
| `Certs.CertFirstIsUnsafe` | crates/server/src/tls.rs:105-108 | In the other order a crash between the writes can leave a pair that `ensure_certs` reports as up to date and that does not load |
| `Certs.SecondOrder` | crates/server/src/tls.rs:105-108 | A run that comes to where that order would fail |
| `Certs.LeadsInv` | crates/server/src/tls.rs:70-113 | Every intermediate state of one call keeps the invariant |
| `Certs.CertHost.SaveKey` | crates/server/src/tls.rs:109 | Writes and syncs the key, or stops where it failed |
| `Certs.CertHost.SaveCert` | crates/server/src/tls.rs:110 | Writes and syncs the certificate, or stops where it failed |
| `Certs.CertHost.EnsureCerts` | crates/server/src/tls.rs:57-113 | Is a run of those steps; answers false exactly when up to date, true exactly when all writes succeeded, and then the pair matches |
| `Certs.CertHost.ReloadCerts` | crates/server/src/tls.rs:327-331 | Swaps in the pair on disk exactly when it matches |
| `RateLimit.GcraRefills` | crates/server/src/rate_limit.rs:29-42 | A limiter of `burst` at one per `t` is as good as new after `t * burst` without a request |
| `RateLimit.GcraRate` | crates/server/src/rate_limit.rs:29-42 | Over any stretch of requests at most `burst` more are admitted than the elapsed time pays for |
| `RateLimit.GcraBurst` | crates/server/src/rate_limit.rs:29-42 | Of requests at the same moment exactly the unspent burst is admitted |
| `RateLimit.TiersRefill` | crates/server/src/rate_limit.rs:104-111 | Both configured tiers are full again before they go stale |
| `RateLimit.CheckInv` | crates/server/src/rate_limit.rs:45-66 | A check that evicts nobody answers as a table that forgets nobody, and keeps doing so |
| `RateLimit.SweepInv` | crates/server/src/rate_limit.rs:87-93 | Dropping stale entries changes no later answer |
| `RateLimit.CleanupIsTransparent` | crates/server/src/rate_limit.rs:45-93 | In every run without eviction every answer is that of an unbounded per-client table |
| `RateLimit.RunCapped` | crates/server/src/rate_limit.rs:68-85 | The table never exceeds 2000 entries |
| `RateLimit.SweepForgets` | crates/server/src/rate_limit.rs:87-93 | In every run a sweep forgets exactly the clients whose last request is more than 900 whole seconds ago |
| `RateLimit.RateTier.CleanupStale` | crates/server/src/rate_limit.rs:87-93 | Keeps exactly the entries seen within 900 seconds |
| `RateLimit.RateTier.FindOldest` | crates/server/src/rate_limit.rs:77-81 | Finds a least recently seen key |
| `RateLimit.RateTier.MakeRoom` | crates/server/src/rate_limit.rs:68-85 | Cleans up only when full and evicts a least recently seen key only when that was not enough |
| `RateLimit.RateTier.Check` | crates/server/src/rate_limit.rs:45-66 | Spends one request of the key's own limiter, a new one when it has none, stamps it with the second, and touches no other entry unless the table is full |
| `Sessions.AcceptedIff` | crates/server/src/auth.rs:47-153 | A session is accepted exactly when it was issued, not evicted, and every access, this one included, came less than 301 seconds after the one before and less than 28801 seconds after its issue, in nanoseconds |
| `Sessions.CsrfIff` | crates/server/src/auth.rs:61-66 | A CSRF token is accepted exactly for an accepted session it was issued with |
| `Sessions.RefusedForever` | crates/server/src/auth.rs:47-58 | An issued session that is refused once is never accepted again |
| `Sessions.EvictedWasLive` | crates/server/src/auth.rs:68-85 | Eviction happens only at the cap, takes only unexpired sessions, just as many as leave room for one, and none used more recently than one that stays |
| `Sessions.RunInv` | crates/server/src/auth.rs:70-90 | In every run the table stays within 1000 sessions and agrees with every session's past |
| `Sessions.AuthService.EvictOldest` | crates/server/src/auth.rs:75-84 | Removes as many sessions as are in excess, the least recently used |
| `Sessions.AuthService.MakeRoom` | crates/server/src/auth.rs:70-85 | Below the cap nothing; at it, expired sessions go first and then the least recently used |
| `Sessions.AuthService.CreateAdminSession` | crates/server/src/auth.rs:31-45 | Makes room and adds the session as of now |
| `Sessions.AuthService.ValidateAdminSession` | crates/server/src/auth.rs:47-58 | Refreshes an unexpired session, removes an expired one, and leaves every other as it is |
| `Sessions.AuthService.ValidateAdminCsrf` | crates/server/src/auth.rs:61-66 | Compares the token of an unexpired session and changes nothing |

## Left out

- The QUIC tunnel splice on both sides: a library byte copy after one handshake; only its slot is modelled.
- Threads inside one message handler: a handler call, a removal and an upload's abort are single steps of `Tunnel`. Between looking a stream up and queueing to it the bridge may go away, and then the server's handler removes a stream that is already gone. `Slots` splits `remove_stream` and `shutdown`.
- Socket reads: each gives between one byte and `TUNNEL_READ_CHUNK` bytes, or the end, or an error.
- Capacity of the bounded link queues: a send that waits for room is a send that has not happened yet.
- Memory ordering weaker than sequential consistency in `SendCredit` and the slot counter.
- Stream ids after 2^32 tunnels of one session: ids are taken to be fresh.
- The slot count after `shutdown` has zeroed it: only that it never exceeds the cap or the slots owed.
- Heartbeats, pings and the lengths of timeouts: a timeout is a step that may happen at any time.
- ChaCha8, Argon2, SHA-256 and TLS: the keystream is an arbitrary function, hashes and tokens are values.
- `validate_target`, allowlist parsing and the character check on connector names: answers given as parameters.
- `force_wss`, `last_seen` and the setup fields in the comparison of memory and disk.
- Lower-casing of non-ASCII letters in the domain name: only ASCII letters change case.
- The governor crate's own arithmetic: the limiter is GCRA as published, and the table's theorem is for any limiter that refills.
- The two clocks of the rate limiter: entries are stamped by the wall clock, limiters run on a monotonic one; the model has one clock that never goes back.
- Concurrent calls into one `RateTier` or `AuthService`: calls come one at a time.
- ACME and Cloudflare requests: they fail or yield a new matching pair.
- HTTP handling in the proxy, headers, static files, the console, install scripts, IP classification and reconnect backoff: they would only add easy members.
