# A verified model of the realtime substrate

The library gives every browser socket of the fleet the same life: authenticate, authorize, join one stream's group,
say hello, catch up from a journal, receive live frames, answer pings, and be closed with a code that says why. Beside
the sockets it keeps a presence registry, a lease per user in a shared cache. This project models that behaviour in
Dafny and proves what holds on every run of it.

- `Socket.dfy` is one socket as a state machine. An event resumes one of its three tasks (dispatcher, writer,
  heartbeat) with the value the awaited call returned, and `Step` runs that task to its next suspension point. Queueing
  a frame does not suspend, so a whole replay burst is one step. `Consumers.dfy` is the consumer object itself, fields
  updated in place and the replay loop as a loop; each method is proved to be the corresponding step, and the object's
  ghost history to be a run, so that the run theorems hold of its own fields.
- `Runs.dfy` proves the invariants of every run and the order, backpressure, authorization and closing theorems;
  `Provenance.dfy` where every queued message comes from. `Effects.dfy` is the protocol as a table, written from what each
  event owes the client rather than from the handlers: every step of every run does exactly what it says, and from it
  follow admission, revocation, the heartbeat's pings and closes, and what a disconnect leaves behind.
- `Catchup.dfy` says exactly what one replay delivers and when it overflows; `Resume.dfy` follows one client over any
  number of sockets, lost frames and reconnects, against a growing journal; its hellos and what it reads are wire JSON.
- `Fanout.dfy` puts any number of sockets behind a best-effort channel layer; `Streams.dfy`, `Delivery.dfy`,
  `Envelope.dfy` and `Json.dfy` are the keys, the send calls and the wire format they use.
- `Presence.dfy` is the registry document, its reads, and its writes on a shared store; `PresenceLease.dfy` compares
  atomic writes with a ledger that never prunes and never expires; `PresenceRaces.dfy` splits every write into clock
  sample, read and write back, interleaved freely, with threads that may be lost.
- `Timing.dfy` and `Continuity.dfy` add real time: runs in which no timer, presence write or drain timeout is served
  more than `lag` late.

## Assumptions

Channels dispatches serially: a handler returns before the next event of that socket is handled. The monotonic and the
wall clock are one clock, starting at or after 0. Settings do not change while a socket is open. Journal rows commit in
ascending order and before their live frame is sent. Where a digest (truncated SHA-256) matters, collisions appear as
explicit cases of the statement.

## Where the code and its documentation differ

The model follows the code.

- `presence.py:45-50` says a race always under-counts. It can also bring a disconnected session back
  (`PresenceRaces.DisconnectedComesBack`), exactly when a write that overlaps the disconnect carries it
  (`PresenceRaces.DisconnectedReturnsExactly`); the error is still bounded by the lease (`PresenceRaces.LiveIsGenuine`).
- W006 (`checks.py:375-390`) compares `HEARTBEAT_S` with the TTL, but beats are `HEARTBEAT_S + max(1,
  HEARTBEAT_TIMEOUT_S)` apart, so its silence does not keep a healthy user live
  (`Continuity.W006Gap`, exactly: `Continuity.W006Exactly`).
- A replay within `MAX_REPLAY` may not fit the send queue; the defaults are 500 rows and 100 places
  (`conf.py:40-45`, `Catchup.WindowFitsQueue`).
- A LIVE frame queued before the hello raises the dedup cursor, and rows at or below it are not replayed although
  REPLAY_DONE follows (`Resume.EarlyLiveLosesRows`, exactly: `Resume.ResumeExactly`).
- A socket can be closed twice, first for overflow and then by the end of a drain
  (`Runs.RevokeOfFullQueueClosesTwice`, exactly: `Runs.ClosedTwiceExactly`).
- When a send fails the writer marks the message done, so a drain completes without it
  (`Runs.DrainWithoutKick`, exactly: `Runs.DrainDelivers`).
- `deliver` is documented as never raising, but an unhashable signal type raises TypeError, and
  `deliver_frame` converts its arguments outside the `try` (`Delivery.RaisesExactly`).
- `group_name` is called collision-free; `Streams.GroupNameCollisions` lists the collisions that remain for dot-free
  keys, and `Streams.DottedSegmentsCollide` shows why dot-free is needed.
- `conf.py:36-38` says a wide gap is answered by an error with code `resync`; the code sends a RESYNC frame. The close
  code table says a `revoked` frame precedes 4410; it is a KICK.
- `_SAFE_ID` ends in `$`, which also matches before a final newline (`Presence.SafeIdEscapes`).

## Model

| member | source | states |
|---|---|---|
| Runs.FifoBackpressure | consumers.py:310-342 | In every reachable state the queue holds at most max(1, SEND_QUEUE_SIZE) messages, the wire log is a prefix of the log of all queued messages, and between them lie at most one message in flight or lost, then the queue |
| Runs.JournalOrder | consumers.py:294-305 | Over any hellos, replays, live frames and races, REPLAY and LIVE numbers are queued and written in strictly increasing order; while not closing the cursor is the maximum of 0, all queued numbers and all claimed last_seq values |
| Runs.AuthorizationFreshness | consumers.py:194-214 | Every hello ever handled rests on the newest verdict, which was positive and was asked for on receipt of that hello or less than max(0, AUTHORIZE_CACHE_S) before it |
| Runs.NegativeVerdict | consumers.py:234-239 | A refused hello empties the verdict cache and leaves the socket closing and draining with at most the unauthorized error queued, and in no later state of the run is that hello among the handled ones |
| Runs.HelloOnce | consumers.py:218-240 | The log of handled hellos lists hellos of the run by their ordinal, strictly increasing: none is handled twice or out of order, and one that waits for its verdict is not among them |
| Runs.ClosingIsFreeze | consumers.py:310-355 | Once closing, a socket stays closing for the rest of the run and queues nothing more; every close after the first is the end of a drain |
| Runs.CloseOnTransition | consumers.py:344-389 | A step that calls close on an accepted socket either takes it from open to closing (overflow or heartbeat) or ends a drain of an already closing one |
| Runs.ReasonedClose | consumers.py:218-239 | The first close of an accepted socket carries the code of the path that called it; for 4410, 4400 and 4403 the last message ever queued is the KICK, the bad_envelope error or the unauthorized error |
| Runs.StrikesCount | consumers.py:219-227 | The strike counter is the number of malformed frames received on the whole run, and from the third on the socket is closing |
| Runs.FailureStopsWriter | consumers.py:329-342 | Until the disconnect the writer has stopped if and only if some send failed, and then it lost the message it held |
| Runs.DrainDelivers | consumers.py:344-355 | When a drain completes, the wire log equals everything ever queued if and only if no send had failed before |
| Runs.RevokeOfFullQueueClosesTwice | consumers.py:282-290 | Witness: every run ending in an idle open socket with a full queue goes on, by a revocation and a drain timeout, to a socket closed with 4413 and again with 4410 |
| Runs.RepeatedClose | consumers.py:310-355 | The close that ends a drain is a repeat if and only if, when the drain began, the socket was closing already or its queue was full |
| Runs.ClosedTwiceExactly | consumers.py:310-355 | In any state of any run a socket has been closed more than once if and only if a drain has ended that began with the socket closing or its queue full |
| Runs.DrainWithoutKick | consumers.py:337-341 | Witness: every run ending idle and open with an empty queue and a waiting writer goes on, by a revocation whose send fails, to a completed drain and a 4410 close with the KICK on no wire |
| Runs.StepKeeps | consumers.py:103-389 | Every step of every task keeps the control, queue, journal, close and authorization invariants together |
| Runs.Always | consumers.py:103-389 | Those invariants hold in every state of every run |
| Runs.RunExtends | consumers.py:103-389 | A run extended by any enabled event is a run |
| Effects.StepByTable | consumers.py:103-389 | Every step of every run queues, closes and moves its tasks exactly as the protocol table says: what each event owes, as far as it fits, which closes it calls for, where dispatcher and heartbeat go |
| Effects.QueuedAndClosedExactly | consumers.py:218-355 | In every state of every run the queue log is what the events so far were owed, as far as it fitted and in order, and the closes are those they called for: nothing more and nothing less |
| Effects.AdmissionExactly | consumers.py:133-138 | A socket is joined in a state of a run if and only if a positive verdict on its connect came before |
| Effects.AdmittedByVerdict | consumers.py:117-138 | A joined socket was authenticated, resolved the stream key it serves and got a positive verdict on it, in that order |
| Effects.RefusedStaysOut | consumers.py:117-135 | A connect without authentication, without a stream key or with a negative verdict is closed once, with 4401, 4404 or 4403; in no later state is the socket joined, counted present or anything queued for it |
| Effects.AsksExactly | consumers.py:194-214 | A hello is put to the authorizer if and only if the newest verdict is not positive or was asked for longer ago than the cache window |
| Effects.RevocationExactly | consumers.py:282-290 | A revocation naming another user changes nothing of a socket; one naming this user or nobody begins the 4410 drain and, given room, queues the KICK with its reason |
| Effects.DrainBeginsExactly | consumers.py:218-290 | A drain begins if and only if a revocation concerns the socket, the third malformed frame arrives or a hello is refused, and with the code of that cause |
| Effects.PingGoesOut | consumers.py:376-385 | Every beat of an open socket queues a PING if there is room and closes it for overflow if not |
| Effects.PingSpacing | consumers.py:360-389 | Two pings of a socket are at least HEARTBEAT_S + max(1, HEARTBEAT_TIMEOUT_S) apart |
| Effects.CloseCause | consumers.py:103-389 | Every close of a run traces to the one event that called for it |
| Effects.HeartbeatCloses | consumers.py:363-389 | The heartbeat closes only an open socket, with 4401 at a wake-up after the token expired or with 4408 at a deadline with the pong outstanding |
| Effects.TokenChecked | consumers.py:361-382 | A wake-up closes an open socket with 4401 if and only if the token has expired, and otherwise renews its presence |
| Effects.DisconnectIsFinal | consumers.py:155-170 | A disconnect uncounts a counted session by exactly one presence write, and nothing is sent, queued, closed or touched after it |
| Provenance.StepAdds | consumers.py:218-305 | Whatever a step queues answers the event of that step in the state it met, down to error codes, gap, window and announced number; only a server number adds a claim, and the cursor never falls |
| Provenance.EveryMessageCaused | consumers.py:218-305 | Every message ever queued can be traced to the one event of the run that queued it and the state that event met |
| Catchup.BurstOutcome | consumers.py:511-512 | The replay loop queues exactly the rows above everything before them, as far as they fit, and closes for overflow if some do not |
| Catchup.ReplayOutcome | consumers.py:511-513 | REPLAY_DONE is queued if and only if queue length, rows above the cursor and one more fit max(1, SEND_QUEUE_SIZE); otherwise the link is closing with 4413 after exactly the rows that fit |
| Catchup.OverflowEndsReplay | consumers.py:511-513 | On a run, an overflowing replay leaves the socket closing with 4413 first and its REPLAY_DONE is never queued in any later state |
| Catchup.WindowFitsQueue | conf.py:36-45 | Every admissible window fits an empty queue if and only if MAX_REPLAY is below max(1, SEND_QUEUE_SIZE) |
| Catchup.PassingOfSorted | consumers.py:294-302 | Of an ascending burst, what survives the dedup is exactly the rows above the cursor |
| Catchup.Dense | consumers.py:496-497 | The i-th row above a number is at least that number plus 1 plus i, so a window of that many numbers holds no more rows |
| Catchup.HookReaches | consumers.py:477-480 | Limiting the replay query to MAX_REPLAY rows drops no row within the window |
| Catchup.ReplayDelivers | consumers.py:511-513 | If the burst fits, of the journal rows in (last_seq, server_seq] exactly those at or below the cursor are missing from it |
| Catchup.CursorHolds | consumers.py:490-511 | Between the two hooks nothing moves the cursor: it is the maximum of its old value and last_seq, and the gap is within the window |
| Catchup.ResyncVerdict | consumers.py:496-509 | Rows are awaited if and only if the gap is within MAX_REPLAY; otherwise, given room, WELCOME and RESYNC are queued and the socket stays open |
| Catchup.ResyncReplaysNothing | consumers.py:496-509 | After a gap wider than MAX_REPLAY no REPLAY and no REPLAY_DONE is queued in any later state until another hello has asked for the server number |
| Catchup.CatchUp | consumers.py:482-513 | After a hello that ends open, every row above last_seq up to the announced number was queued once, ascending, before REPLAY_DONE, except exactly those at or below the earlier cursor, even if the journal grew in between |
| Resume.LosslessResume | consumers.py:482-513 | Over any history of sockets, hellos, losses, overflows, kicks and reconnects, read as wire JSON, at REPLAY_DONE{u} for a hello that claimed at least every number the socket had sent or been claimed before, the client holds every journal row up to u, and may claim u next |
| Resume.LosslessFirstHello | consumers.py:482-513 | In particular for the first hello of a socket that sent no LIVE frame before the WELCOME |
| Resume.ResumeExactly | consumers.py:482-513 | At REPLAY_DONE{u} for any hello on any socket, the client holds every row up to u if and only if it holds those above its claim and at or below the cursor the hello met, which is the largest of 0, the numbers sent before that WELCOME and the earlier claims |
| Resume.AlwaysWorld | consumers.py:482-513 | The invariant behind it holds after every move of journal, client and socket |
| Resume.EarlyLiveLosesRows | consumers.py:294-302 | Witness: from every reachable world whose open, authorized socket has not sent the newest row, the client can come to read REPLAY_DONE for that row without holding an older one, because the newest came live before the hello |
| Fanout.StreamIsolation | delivery.py:68-149 | Over every run of any number of sockets with separate groups, each signal, live frame and kick a socket queues shows a send call that named its own stream key, and a kick one that named its user or nobody |
| Fanout.HandledIsQueued | consumers.py:262-290 | Delivery forwards: an open socket with room that handles what a call handed out queues that call's signal, live frame or kick, unless the signal is empty, the number not above its cursor or the kick for another user, and then nothing |
| Fanout.AlwaysFabric | delivery.py:68-149 | All mailboxes and queues of all sockets hold only messages of calls for their own key, in every reachable state |
| Fanout.SeparateKeys | streams.py:85-102 | Legal dot-free keys have separate groups when the digest separates the long ones and no short key spells out a digest form |
| Fanout.KeyFixed | consumers.py:133-139 | The stream key never changes once the group is joined, and before that nothing is queued and no group event arrives |
| Streams.ParseOfBuilt | streams.py:62-82 | A built key parses back to the segments it was built from |
| Streams.PrintOfParsed | streams.py:62-82 | Every accepted key prints back to itself |
| Streams.AcceptedKeys | streams.py:71-81 | A key is accepted if and only if it has two or three colons and only legal segments |
| Streams.JoinOfSplit | streams.py:73 | Joining the colon-separated parts gives the key back |
| Streams.SplitOfJoin | streams.py:73 | Splitting joined colon-free parts gives the parts back |
| Streams.GroupNameCollisions | streams.py:85-102 | Dot-free keys share a group if and only if they are equal, two long keys of one module collide in the digest, or a short key spells out a long one's digest form |
| Streams.DottedSegmentsCollide | streams.py:98-100 | Were dots legal in segments, a topic key and a topic-less key of different streams would share a group |
| Streams.GroupNameLength | streams.py:98-102 | A group name has at most 90 characters if and only if the key is short or its module has at most 47 |
| Streams.GroupNameForm | streams.py:85-102 | A short key becomes its characters with dots for colons, a long one its module, `.h.` and its digest; no colon is left |
| Envelope.TypeNames | envelope.py:46-71 | The names of the eleven protocol types are distinct and none is a signal's |
| Envelope.EncodeThenParse | envelope.py:105-122 | What frame() builds, parse_frame() reads back unchanged |
| Envelope.ParseThenEncode | envelope.py:130-160 | Every accepted envelope has a canonical form that parses to the same frame |
| Envelope.AcceptedExactly | envelope.py:130-160 | Accepted are exactly objects of version 1 with a named type whose payload, number and stream are each missing, null or of their kind; and the frame says what the object says |
| Json.IntOfDecimals | envelope.py:151-156 | Converting the decimal print of an integer gives it back, with a plus sign too |
| Json.IntAccepts | envelope.py:151-156 | A string converts if and only if it is digits after at most one sign |
| Json.TruncatesTowardZero | envelope.py:151-156 | Converting a float drops its fraction toward zero |
| Socket.ReadBack | consumers.py:294-308 | Round trip over the wire: from every protocol message of the socket a client reads back that message with all its fields, on the socket's own stream, numbered exactly as the dedup numbers it |
| Socket.SignalOnWire | consumers.py:262-274 | A delivered signal reaches the wire with all its fields and nothing added but a stream, the socket's own unless the core wrote one, and never reads as a protocol frame |
| Socket.ClassifiedByName | consumers.py:218-248 | A rejected message is malformed; of the accepted ones hello, ping and pong are known by name and every other type is not accepted |
| Socket.HelloSays | consumers.py:483-488 | What a hello claims: the client's own number if not negative, as an integer, its decimal print or a truncated float; 0 for a negative, missing, null or falsy one; nothing for a non-empty list or object |
| Socket.SettingsMean | consumers.py:113-115 | Queue size, pong timeout and cache window are the settings with floors of one place, one second and zero; a heartbeat runs only for a positive interval |
| Delivery.RaisesExactly | delivery.py:85-149 | A send call raises if and only if it is a signal whose type is a list or an object, or a journal call whose number or payload does not convert |
| Delivery.SentExactly | delivery.py:68-149 | A call reaches the layer if and only if the layer is up, the key legal and the arguments sendable, and then as its own message, unchanged, to the group of its own key |
| Delivery.SignalsStaySignals | delivery.py:97-110 | A signal frame that reaches the channel layer parses, if at all, as a signal |
| Timing.SilentClientIsReaped | consumers.py:359-389 | If no pong is handled after time p, the socket is closing by p + HEARTBEAT_S + 2 max(1, HEARTBEAT_TIMEOUT_S) and four lags |
| Timing.ExpiredTokenIsReaped | consumers.py:359-399 | A token expiring at E has its socket closing by E + HEARTBEAT_S + max(1, HEARTBEAT_TIMEOUT_S) and three lags |
| Timing.PongDeadline | consumers.py:383-389 | At a ping's deadline an open socket is closed with 4408 if and only if no pong was handled since that ping, which had been queued for the client |
| Timing.PingOf | consumers.py:383-386 | The pending flag says exactly whether a pong was handled since the one ping whose deadline is pending |
| Timing.DrainGoesOn | consumers.py:344-355 | A drain once begun goes on until its close has been called |
| Timing.RevokedSocketIsClosed | consumers.py:282-290 | A revocation for this user has its 4410 close called within one second and a lag, however slow the reader |
| Timing.DrainIsPatient | consumers.py:350-355 | A drain that ends by its timeout has been given its full second |
| Continuity.LeaseContinuity | consumers.py:359-385 | With atomic presence writes, an open socket is reported live at every instant, unscoped and for its family, when HEARTBEAT_S + max(1, HEARTBEAT_TIMEOUT_S) and four lags stay below the TTL |
| Continuity.LeaseUnderRaces | consumers.py:359-385 | The same with every presence write split and freely interleaved: live at every instant at which the socket's last touch has landed undisturbed |
| Continuity.AlwaysRenewing | consumers.py:359-385 | On a punctual run the time since the last touch of an open socket is bounded in every heartbeat phase |
| Continuity.TouchedIsLive | presence.py:149-179 | Until one TTL after its sample a landed touch keeps the user live, whatever other sessions write |
| Continuity.W006Gap | checks.py:375-390 | For every setting on which W006 is silent but the beat period reaches the TTL, there is a punctual run whose ponging, open socket reads as not live |
| Continuity.W006Exactly | checks.py:375-390 | Exactly the settings with HEARTBEAT_S + max(1, HEARTBEAT_TIMEOUT_S) below the TTL keep the user of every open socket live at every instant of every punctual run |
| Continuity.W006Verdict | checks.py:350-390 | W006 never fires without cause, and what it misses is exactly a TTL above HEARTBEAT_S but not above the beat period; with a disabled registry it fires and every user reads as offline |
| Continuity.NeverReaped | checks.py:220-232 | Exactly what W003 warns of: with no heartbeat no ping is ever queued, no close ever comes from the heartbeat, and the lease is written at most once |
| Continuity.W003Exactly | checks.py:220-232 | On every run an open, connected socket is without a heartbeat if and only if W003 fires |
| Continuity.LapsesWithoutBeat | checks.py:220-232 | With W003 firing, the user of an open socket reads as not live from one TTL after connecting |
| Presence.KeyCollisions | presence.py:122-126 | Two users share a cache key if and only if they are equal, two unsafe ids collide in the digest, or a safe id spells out the digest form of an unsafe one |
| Presence.KeyForm | presence.py:81-126 | A key is the fleet's prefix and then the id itself or `h.` and its digest |
| Presence.FamilyScope | presence.py:163-179 | A touched session counts for its own family and the unscoped question, one without a family for the unscoped question only |
| Presence.SafeIdExactly | presence.py:93-126 | An id travels undigested if and only if, but for one final newline, it is 1 to 128 alphanumeric characters or `_.:@+-` |
| Presence.SafeIdEscapes | presence.py:93-126 | An id that is not digested leaves the character class if and only if it ends in a newline, and then only there |
| Presence.BatchAgrees | presence.py:284-317 | Within the cap a batch answers for exactly the ids that are not None, each as is_live would at that instant, in whatever order keys are read; above the cap, duplicates counted, it raises |
| Presence.Registry.RecordTouch | presence.py:207-223 | Exactly this user's entry takes the write, all others stay; False and no change when disabled, unnamed or unreachable |
| Presence.Registry.RecordDisconnect | presence.py:226-255 | As for a touch, and False with no change when there is no document |
| PresenceLease.RefinesLedger | presence.py:149-179 | After any ordered writes, sessions and liveness for every family equal those of a ledger that never prunes or expires, except at the exact end of a lease; unscoped last_seen is the last write while the entry lives |
| PresenceLease.FamilyLastSeen | presence.py:163-179 | The last_seen of a family is the ledger's newest while the entry lives and that lease had not run out by the last write, and none otherwise |
| PresenceLease.AlwaysAgrees | presence.py:207-255 | The cached document and the ledger agree after every write |
| PresenceRaces.UninterruptedIsAtomic | presence.py:207-255 | A read and write back with nothing between are the atomic write |
| PresenceRaces.LiveIsGenuine | presence.py:149-179 | Under any interleaving, expiry and lost threads, each session counted live was really touched, for that family, with a clock sample within the last TTL |
| PresenceRaces.UntouchedIsOffline | presence.py:55-58 | A user with no touch sampled within the last TTL reads as not live with no sessions |
| PresenceRaces.AlwaysSound | presence.py:207-255 | Every entry stored or in flight in any reachable world stems from a genuine touch |
| PresenceRaces.LostOnlyByOverlap | presence.py:45-50 | A landed session leaves the document only because its lease ran out, its own disconnect wrote, or a writer that had read before the landing wrote back |
| PresenceRaces.QuietTouchRestores | presence.py:45-50 | A touch that nobody overlaps restores its session and loses no live other |
| PresenceRaces.DisconnectedComesBack | presence.py:226-255 | Witness: a write back that overlaps the disconnect makes the disconnected session live again for a whole TTL |
| PresenceRaces.ReturnsExactly | presence.py:207-255 | A session that is not visible can be counted live again without a new touch if and only if a thread in flight carries an entry of it whose lease still runs |
| PresenceRaces.ReturnsOnlyCarried | presence.py:207-255 | What shows again of a session nobody touches anew is an entry that was in flight |
| PresenceRaces.FinishCarrier | presence.py:207-255 | Every thread that carries an entry shows it by its own next read and write back |
| PresenceRaces.DisconnectedReturnsExactly | presence.py:226-255 | Just after a disconnect's write its session is gone, and it returns without a new touch if and only if an overlapping write carries it: a touch sampled before, or a write whose read came before |
| PresenceRaces.UndisturbedIsLive | presence.py:207-255 | Under any interleaving a landed touch keeps its session live for one TTL from its sample, as long as no writer that read before the landing and no older write of the session lands in between |
| Consumers.StreamConsumer.constructor | consumers.py:103-115 | A new socket is in the initial state |
| Consumers.StreamConsumer.LifeSoFar | consumers.py:103-389 | For an object with any history: its queue, its wire and everything queued fit together and ascend, the cursor is exact, strikes are malformed frames, handled hellos were fresh, and it was closed twice exactly as for runs |
| Consumers.StreamConsumer.StaysFrozen | consumers.py:310-355 | Over any number of calls an object that was closing still is, has queued nothing since, and every close but the first ended a drain |
| Consumers.StreamConsumer.Note | consumers.py:103-389 | The step about to be taken extends the history to a longer run and leaves the queue bounded, the wire in order and a closing socket frozen |
| Consumers.StreamConsumer.Connect | consumers.py:117-131 | Authentication and stream key checks, as the step of the state machine |
| Consumers.StreamConsumer.AuthorizeCached | consumers.py:205-208 | A warm verdict is used, otherwise the question is put at the current time |
| Consumers.StreamConsumer.NoteVerdict | consumers.py:208-214 | The answer sets the cache from the time of the question, or empties it |
| Consumers.StreamConsumer.VerdictArrives | consumers.py:133-148 | The step after the authorizer answers, for connect and for hello |
| Consumers.StreamConsumer.PresenceReturns | consumers.py:144-153 | The step that starts the writer and the heartbeat, or ends the disconnect |
| Consumers.StreamConsumer.Disconnect | consumers.py:155-170 | The disconnect step: closing, tasks cancelled, a counted session uncounted |
| Consumers.StreamConsumer.ReceiveJson | consumers.py:218-240 | The step for a received message, from its raw JSON |
| Consumers.StreamConsumer.OnHello | consumers.py:482-488 | An authorized hello is handled up to its first suspension |
| Consumers.StreamConsumer.ServerSeqArrives | consumers.py:490-509 | WELCOME, then the resync verdict, as the step of the state machine |
| Consumers.StreamConsumer.RowsArrive | consumers.py:511-513 | The replay loop in place does what the recursive specification says, then REPLAY_DONE |
| Consumers.StreamConsumer.GroupEvent | consumers.py:262-290 | The step for a signal, a live frame and a revocation |
| Consumers.StreamConsumer.SendFrame | consumers.py:294-305 | Dedup and cursor advance before queueing |
| Consumers.StreamConsumer.Enqueue | consumers.py:310-327 | Queue, drop or overflow |
| Consumers.StreamConsumer.DrainEnds | consumers.py:352-355 | The drain ends, done or timed out, with the close it was begun for |
| Consumers.StreamConsumer.WriterTakes | consumers.py:329-331 | The writer takes the oldest message |
| Consumers.StreamConsumer.SendReturns | consumers.py:332-342 | A send reaches the wire or stops the writer |
| Consumers.StreamConsumer.HeartbeatWakes | consumers.py:361-384 | The wake-up step: stop, close for an expired token, renew presence, or ping |
| Consumers.StreamConsumer.HeartbeatTouched | consumers.py:376-385 | The step after the presence write |
| Consumers.StreamConsumer.PongDeadlinePasses | consumers.py:385-389 | The deadline step: 4408 or the next sleep |

## Left out

- Continuity.W006Exactly: concerns a token without expiry and a user with one socket; `Continuity.LeaseContinuity` and `Continuity.LeaseUnderRaces` cover the rest.
- Continuity.LeaseContinuity: takes presence writes as atomic; `Continuity.LeaseUnderRaces` is the interleaved form, and a write lost to a race (`PresenceRaces.LostOnlyByOverlap`) can hide the session until the next beat.
- Timing.SilentClientIsReaped: bounds the start of closing; how long the transport takes to close is not modelled.
- PresenceLease.RefinesLedger: leaves the `last_seen` of a family to `PresenceLease.FamilyLastSeen`.
- Socket.ReadBack: the `message` text inside an error payload is not modelled, only its code.
- Delivery.RaisesExactly: what `dict` makes of a journal payload is a parameter, absent when it raises.
- Suspension inside `close` itself (`closing` is already set there), inside `group_add`, `accept` and `group_discard`.
- Log lines, and the reason phrases of exceptions.
- Exceptions raised by the authorizer, the two journal hooks or `get_stream_key` of a subclass, and the base class's own `on_hello`, which is never used directly.
- `int()` of strings with blanks, underscores or non-ASCII digits, and of infinite floats.
- `presence_family`; the family of a socket is a parameter of the lease theorems.
- Presence documents with malformed entries or non-numeric times; ISO formatting and the range errors it swallows.
- A heartbeat's presence write that is cancelled in flight is not tied to its socket's run; its late landing is any in-flight thread of `PresenceRaces`.
- The order in which `live_batch` sorts its keys: the agreement is proved for every order.
- Channels, Redis, asgiref and the Django cache beyond group membership, best-effort delivery and expiry times; SHA-256.
- `asgi.py`, `authorize.py`, `functions.py`, `apps.py`, `testing.py` and the checks other than W003 and W006: single-function configuration reads and assembly that would only add easy members.
- The legal-segment rule and the key builder are stapel_core's, which is not part of this model; a legal segment is assumed non-empty and colon-free.
