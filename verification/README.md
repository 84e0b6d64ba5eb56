# Cherenkov in Dafny

A Dafny 4.11 model of the Cherenkov real-time messaging server: sessions
subscribe to channels, publications are appended to a bounded per-channel
history and fanned out through a broker, and a client that reconnects asks for
what it missed. `dafny verify dfyconfig.toml` checks the whole project.

## The parts

**The hub** (`Hub.dfy`) is a machine of interleaved steps. Every handler of the
server is an `async` function; it is cut at its awaits, and the code between two
awaits is one step. A run is any sequence of events: connections opening, frames
arriving, handlers advancing (and their pluggable parts failing), forwarders
polling the broker and filling outboxes, outboxes closing, sessions being closed
or kicked, the clock ticking. The main results hold in every state that any run
reaches; they are proved by invariants that every step keeps. Beside the state
the server has, a run keeps a record (all accepted publications, who authored
them, what each session asked, how it stood then and what it was answered) so
that the properties can be stated. The authenticator, the access check, the schema check and the channel
kind are parameters. The forms are values and functions, because the subject is
interleaving: what one handler sees between two of its own steps is decided by
all the others. The server-sent events handler (`HubSse.dfy`), which makes several
calls and rolls back, runs on top of the machine, with any events between its steps.

**The parts the hub is made of** are classes, updated in place as the server
updates them, each proved against a value-level specification that the hub's
steps use: the history rings (`PubSub.dfy` against `History.dfy`, an unbounded
log), the broker (`MemoryBroker.dfy`, rings overwritten in place, against
`Broker.dfy`, unbounded topics) and the session registry (`Sessions.dfy` against
`Registry.dfy`, counts per channel and session).

**The edges** are the wire codec (`Protobuf.dfy`, `Wire.dfy`), the browser
demo's own codec (`Browser.dfy`), the WebTransport framing (`Framing.dfy`), the
query string of the server-sent events endpoint (`Query.dfy`) and the generator
of TypeScript types (`TsGen.dfy`, its text `TsText.dfy`).

## What is assumed

- The code between two awaits is one step. Two threads can in fact interleave
  inside such a stretch (for instance between the session's own map and the
  reverse index); those finer interleavings are not runs of the model.
- `SerialRunAt`: one frame of the session is handled at a time. The transports
  guarantee it, since their read loops await each dispatch.
- Aborting a forwarder (`JoinHandle::abort`) acts at once: an aborted forwarder
  takes no further step.
- `Bounded`: no channel has accepted more than 2^64-1 publications. Offsets
  saturate there. The results about history alone do not need it.
- Session ids do not wrap.
- The clock that the hub's steps read does not go back. The history rings
  themselves are also treated with an arbitrary clock, because `on_publish`
  reads the clock before it takes the channel's lock.

## Where code and documents differ

The model follows the code.

- `crates/cherenkov-core/src/channel.rs:85-87` and the comment on `Subscribe` in
  `crates/cherenkov-protocol/proto/v1.proto` say that nothing is replayed when
  the requested offset was evicted. The code replays the tail it still has:
  `NothingReplayedIff` says exactly when nothing is replayed, and
  `EvictedYetReplayed` is an input.
- The pub/sub requirements (`openspec/specs/pubsub-channel`) give epoch 0 and a cursor equal
  to the count. The code gives epoch 1 and one less than the next offset,
  so a channel with one publication and a channel with none both report 0.
- The hub requirements (`openspec/specs/hub-core`) promise that the index lists exactly
  the subscribers under concurrency. A subscribe in flight when its session is
  deregistered can leave an entry for good. `LeavesEntryIff` says exactly when,
  and `KickedRequestSucceeds` is a run.
- The browser demo shows a channel name without its leading byte order mark, and
  from 2^53 on it holds only offsets that are 53 bits times a power of two.
  `ReadsWhatWasPublished` says exactly when it reads back what was published, and
  `NextOffsetIsLost` is an offset it shows as another.
- The comment on `error_code_for` (`crates/cherenkov-transport-ws/src/lib.rs:302-306`)
  says that everything but a schema rejection is an internal error. The code tells
  tokens, denied access and missing claims apart, and so does `RepliesCorrelate`.
- A subscribe from offset 0 asks for no replay (`crates/cherenkov-core/src/hub.rs:374`), so a client that has
  seen offset 0 and nothing above it cannot ask for what it missed.
- A request to the server-sent events endpoint is meant to get all its channels or
  none. A kick while one of its subscribes can still insert breaks that.
  `AllOrNothing` proves it for all other runs and `KickIsSafeIff` that the
  condition is exact.
- The types generated for schemas with `prefixItems` can miss accepted values.
  `SoundIff` says exactly when, the keywords the generator ignores set aside.

## Model

| member | source | states |
|---|---|---|
| `HubOrder.ExactlyOnceRecovery` | crates/cherenkov-core/src/hub.rs:363-405 | In every reachable state, for every subscription, attached or ended: if publishes on the channel never overlapped and no broadcast failed, nothing past `since` was evicted before the replay read and the receiver never lagged, a client that drops frames not above the highest offset seen has exactly the log from `since + 1` on, in order, each entry once, as far as frames reached its outbox |
| `HubRecovery.AtLeastOnceRecovery` | crates/cherenkov-core/src/hub.rs:363-405 | Under every interleaving and for every subscription that read a replay: each broadcast publication past `since` has reached the session's outbox through the subscription, or is read for replay and not yet sent, or is in the forwarder's hand, or was skipped by lag, had been evicted when the replay was read, waits in the topic (where the ring may have overwritten it) while the stream is attached, or came after the stream had ended or was in hand when it ended |
| `HubRecovery.AtMostTwiceDelivered` | crates/cherenkov-core/src/hub.rs:475-498 | No offset comes more than twice through one subscription, attached or ended, and twice only if it was accepted before the replay read and broadcast after the stream was attached |
| `HubPublish.PublishesAccounted` | crates/cherenkov-core/src/hub.rs:475-498 | In every reachable state, for every session, channel and payload: the publishes answered with success and those still carried to the broker are all in the log, each with an entry of its own under its author, and each further entry of that author and payload belongs to a publish of its own that was answered with an error |
| `HubFanOut.SuccessIsBroadcast` | crates/cherenkov-core/src/hub.rs:490-497 | Each publish answered with success has a broadcast of its own: per session, channel and payload, as many broadcasts belong to log entries of the session as publishes were answered so |
| `HubFanOut.EntryHasFate` | crates/cherenkov-core/src/hub.rs:491-497 | Every log entry was broadcast, or a handler carries it to the broker, or its author was told that the publish failed |
| `HubProgress.ForwarderDelivers` | crates/cherenkov-core/src/hub.rs:397-405 | By its own steps alone a running forwarder of a session with an open outbox can deliver exactly what it has in hand and what waits in the topic without having been overwritten, in order |
| `HubProgress.HeldDelivers` | crates/cherenkov-core/src/hub.rs:397-416 | So does every subscription that a session with an open outbox holds |
| `HubProgress.HandlerAnswersAsDue` | crates/cherenkov-core/src/hub.rs:318-498 | With the session's frames handled one at a time, a handler that is not unwinding, left alone with its parts working, answers its message, with success if and only if no refusal is due (a subscribe with the outbox open) |
| `HubGenuine.NoFabrication` | crates/cherenkov-core/src/hub.rs:374-405 | Every publication in any outbox came through a subscription of that very session and equals the log entry of that channel at that offset, data included |
| `HubDelivery.ReplayThenLive` | crates/cherenkov-core/src/hub.rs:374-405 | What an outbox received through a subscription, attached or ended, is the replay so far followed, only once the replay is complete, by broadcasts of the channel made after the attachment, at ascending positions of the broadcast order; through another session's subscription it received nothing |
| `HubDelivery.ZeroIsNotReplayed` | crates/cherenkov-core/src/hub.rs:374-396 | Through a subscription from offset 0 an outbox receives live broadcasts only |
| `HubDelivery.NothingAfterDrop` | crates/cherenkov-core/src/hub.rs:433-453 | Once a subscription's stream is dropped, nothing more goes through it to any outbox in any continuation |
| `HubDelivery.UnsubscribeDrops` | crates/cherenkov-core/src/hub.rs:445-452 | An unsubscribe that finds a subscription drops its stream in that very step |
| `HubOutbox.HeldRuns` | crates/cherenkov-core/src/hub.rs:397-416 | Whatever a session with an open outbox holds is attached to its channel with its forwarder running |
| `HubOutbox.NoStreamLeaks` | crates/cherenkov-core/src/hub.rs:357-415 | Each attached stream belongs to a subscribe in flight or to a subscription its session holds |
| `HubOutbox.ReleaseEndsAll` | crates/cherenkov-core/src/session.rs:143-157 | A session released when nothing uses it any more holds nothing and all streams of its subscriptions have ended |
| `HubOutbox.OpenStaysOpen` | crates/cherenkov-core/src/session.rs:184-192 | From its opening a session is registered until it is deregistered, and its outbox open until it is closed |
| `HubOutbox.CloseIsFinal` | crates/cherenkov-transport-ws/src/lib.rs:318-325 | A closed outbox gets nothing more, and a deregistered session is never registered again and gets no more replies, whatever follows |
| `HubAuth.SubscriptionsAuthorised` | crates/cherenkov-core/src/hub.rs:341-343 | Every held subscription was allowed by the access check under the claims it was requested with; with connect required and that session's frames handled one at a time, those are the session's claims now |
| `HubAuth.PublicationsAuthorised` | crates/cherenkov-core/src/hub.rs:475-491 | Every log entry was allowed for its author and accepted by the validator for its channel, and under the same conditions on the author's session it still has those claims |
| `HubAuth.ClaimsSetOnce` | crates/cherenkov-core/src/hub.rs:234-262 | Under the same conditions a session's claims, once set, never change, whatever follows |
| `HubTokens.ClaimsComeFromTokens` | crates/cherenkov-core/src/hub.rs:247-256 | In every reachable state the claims of a session, of a subscription and of a log entry's author are what the authenticator makes of a token that session presented in a Connect, or the anonymous ones in a hub that admits anonymous sessions |
| `HubTokens.ClaimsAreEarned` | crates/cherenkov-core/src/hub.rs:247-262 | A session's claims are exactly those of its last successful Connect; without one it has none, or those of the subject "anonymous" in a hub that admits anonymous sessions |
| `HubBalance.HooksBalance` | crates/cherenkov-core/src/hub.rs:351-415 | Per channel, successful `on_subscribe` calls minus `on_unsubscribe` calls is the handlers between the two plus the holders plus the holders dropped with their session; so every failed subscribe nets zero |
| `HubIndex.IndexAgrees` | crates/cherenkov-core/src/session.rs:202-268 | A registered session is listed for a channel exactly once if it holds it and not at all otherwise, no list is empty, and an unregistered id is listed at most once and only if a subscribe was in flight at its deregistration |
| `HubStale.CloseLeavesNoTrace` | crates/cherenkov-core/src/session.rs:202-212 | A session closed or kicked while none of its subscribes can still insert is never registered or listed again, in any continuation |
| `HubStale.StaleEntryStays` | crates/cherenkov-core/src/session.rs:252-257 | An index entry of a session that is gone stays in every continuation |
| `HubStale.LeavesEntryIff` | crates/cherenkov-core/src/hub.rs:328-415 | For every reachable state with the session registered, for pub/sub channels or, with the session's outbox open, channels of any kind: some continuation of deregistering it lists it again if and only if one of its subscribes in flight can still insert, that is, does not ask for a channel already held, is past or will pass the access check and the name check, is not unwinding, and is not sending a replay into a closed outbox |
| `HubReplies.RepliesCorrelate` | crates/cherenkov-transport-ws/src/lib.rs:165-325 | With the session's frames handled one at a time: all messages read but perhaps the last are answered, only the last can be undecodable, and in a reachable session's outbox the non-publication frames answer the messages in order, the newest reply perhaps on its way: one reply with the same request id per Subscribe, Unsubscribe and Connect, one Error per failed Publish, none per successful Publish, one Error with id 0 for an undecodable message. Every error has the code and text of its cause, decided by the pluggable parts and how the session stood when the message was read; no message with such a cause succeeds; one without fails only with an internal error of a subscribe or publish; ConnectOk has the subject and expiry the token stands for; SubscribeOk has epoch 1 and, for pub/sub, one less than the next offset of the log at a length between those at the request and now |
| `HubCursor.RunKeepsCursors` | crates/cherenkov-core/src/hub.rs:352 | In every reachable state of a pub/sub hub the position that a subscribe carries, from its entering on, is one less than the next offset of the channel's log at the length recorded then, 0 for an empty log |
| `HubGrants.RunKeepsGrants` | crates/cherenkov-core/src/hub.rs:407-424 | A registered session that never unsubscribes holds exactly the channels for which it was told a subscribe succeeded |
| `HubSse.AllOrNothing` | crates/cherenkov-transport-sse/src/lib.rs:255-288 | The handler as it runs, for every channel list and whatever the rest of the server does between its steps, if the session is not kicked while one of its subscribes can still insert: a request that succeeds was answered yes to every call and its session is listed once for each channel asked for and for no other, or was kicked; a request that fails had a failed call or no token where one is needed; and a failed or kicked session is never registered or listed again |
| `HubSse.KickIsSafeIff` | crates/cherenkov-transport-sse/src/lib.rs:279-288 | That condition is exact, for any channel kind: with the session registered, a kick leaves nothing however handler and server go on if and only if none of its subscribes can still insert |
| `HubSse.RequestEnds` | crates/cherenkov-transport-sse/src/lib.rs:255-288 | However a request stands, some continuation of handler steps and hub steps of its calls brings it to its end: refused, failed or succeeded |
| `HubSse.KickedRequestSucceeds` | crates/cherenkov-transport-sse/src/lib.rs:279-288 | A run in which a request succeeds with its session gone and an index entry left for good |
| `History.RingRefinesLog` | crates/cherenkov-channel-pubsub/src/lib.rs:135-194 | After any run with a clock that does not go back, replay is exactly the log entries above `since` that the size and age bounds keep, and these are one unbroken run of the log that ends with its newest entry |
| `History.AnyClockKeepsSuffix` | crates/cherenkov-channel-pubsub/src/lib.rs:67-76 | With any clock at all, the ring is a suffix of the log at most `history_size` long and replay is a suffix of the log |
| `History.NothingReplayedIff` | crates/cherenkov-channel-pubsub/src/lib.rs:169-194 | Nothing is replayed if and only if the bounds keep nothing above `since` |
| `History.EvictedYetReplayed` | crates/cherenkov-channel-pubsub/src/lib.rs:169-194 | An input that asks from offset 1, whose next offset was evicted and whose replay is not empty |
| `PubSub.PubSubChannel.constructor` | crates/cherenkov-channel-pubsub/src/lib.rs:58-65 | A new channel kind has accepted nothing; the size bound is clamped to at least 1 |
| `PubSub.PubSubChannel.EvictExpired` | crates/cherenkov-channel-pubsub/src/lib.rs:67-76 | The loop removes exactly the leading entries older than the age bound |
| `PubSub.PubSubChannel.Cursor` | crates/cherenkov-channel-pubsub/src/lib.rs:78-97 | The cursor is epoch 1 and one less than the next offset, 0 if nothing was ever accepted, whatever was evicted |
| `PubSub.PubSubChannel.OnSubscribe` | crates/cherenkov-channel-pubsub/src/lib.rs:120-127 | An empty name is refused; otherwise the cursor of the channel's log |
| `PubSub.PubSubChannel.OnPublish` | crates/cherenkov-channel-pubsub/src/lib.rs:135-167 | An empty name is refused and changes nothing; otherwise the log grows by this publication, whose offset is the log's length before (saturating), other channels' logs are unchanged and every ring still agrees with its log |
| `PubSub.PubSubChannel.ReplaySince` | crates/cherenkov-channel-pubsub/src/lib.rs:169-194 | The answer is the one read off the whole log by the bounds while the clock has not gone back, and always an unbroken tail of the log; the log is unchanged |
| `Broker.Conservation` | crates/cherenkov-broker/src/lib.rs:100-140 | For a receiver that is not dropped, over any events: everything sent to its topic since it attached is what it was handed plus what it lost plus what waits, at most the capacity; what it was handed is in send order; its topic is never reaped |
| `Broker.ReapsUnheard` | crates/cherenkov-broker/src/lib.rs:127-140 | A topic outlives a publish if and only if a receiver listens to it, and then ends with the publication; nothing else changes |
| `MemoryBroker.MemoryBroker.constructor` | crates/cherenkov-broker/src/lib.rs:60-67 | A new broker has no topics; the ring size is at least 1 and at least the capacity asked for |
| `MemoryBroker.MemoryBroker.Subscribe` | crates/cherenkov-broker/src/lib.rs:75-106 | A fresh receiver at the tail of its topic, the topic created if absent, as in the broker with unbounded topics |
| `MemoryBroker.MemoryBroker.Publish` | crates/cherenkov-broker/src/lib.rs:127-140 | No topic, no effect; a topic with receivers grows by the publication, overwriting the oldest slot of its ring; a topic without receivers is reaped; as in the broker with unbounded topics |
| `MemoryBroker.MemoryBroker.Poll` | crates/cherenkov-broker/src/lib.rs:100-106 | One look at the ring gives what the unbounded topic gives at the receiver's position: nothing new, the size of a gap, or that very publication |
| `MemoryBroker.MemoryBroker.Next` | crates/cherenkov-broker/src/lib.rs:103-124 | The stream yields the oldest publication still in the ring, adds exactly the overwritten ones to the dropped count, and yields nothing only when nothing is new |
| `Sessions.Session.InsertSubscription` | crates/cherenkov-core/src/session.rs:119-136 | Inserts unless the channel is held, in which case the forwarder is handed back and nothing changes |
| `Sessions.Session.RemoveSubscription` | crates/cherenkov-core/src/session.rs:138-140 | Gives the channel's forwarder, if any, and removes exactly that entry |
| `Sessions.Session.AbortAll` | crates/cherenkov-core/src/session.rs:143-150 | Every held forwarder is aborted, no other is, and none is held any more |
| `Sessions.SessionRegistry.NextId` | crates/cherenkov-core/src/session.rs:175-177 | Ids are handed out in order and are never those of a registered session |
| `Sessions.SessionRegistry.Register` | crates/cherenkov-core/src/session.rs:184-192 | Adds a session under an id that was handed out and is not registered; registering twice is the caller's error |
| `Sessions.SessionRegistry.Deregister` | crates/cherenkov-core/src/session.rs:202-212 | Removes the session; if it was registered no channel lists it any more, every other session's entries are untouched, and no list is left empty; if it was not, nothing changes |
| `Sessions.SessionRegistry.SubscribersOf` | crates/cherenkov-core/src/session.rs:245-250 | Each id as often as it is listed for the channel |
| `Sessions.SessionRegistry.AddSubscription` | crates/cherenkov-core/src/session.rs:252-257 | One more entry for this id and channel; all other counts unchanged |
| `Sessions.SessionRegistry.RemoveSubscription` | crates/cherenkov-core/src/session.rs:259-268 | No entry is left for this id and channel; all other counts unchanged; no list is left empty |
| `Wire.ClientRoundTrip` | crates/cherenkov-protocol/src/frame.rs:194-249 | Decoding an encoded client frame gives it back, for every frame with 64-bit integers and UTF-8 strings |
| `Wire.ServerRoundTrip` | crates/cherenkov-protocol/src/frame.rs:205-261 | The same for every server frame |
| `Wire.PublicationRoundTrip` | crates/cherenkov-protocol/src/frame.rs:219-237 | The same for bare publications |
| `Wire.ClientBytes` | crates/cherenkov-protocol/proto/v1.proto:17-82 | The bytes of every client frame are those that the field numbers and types of the protocol definition give, default values left out |
| `Wire.ServerBytes` | crates/cherenkov-protocol/proto/v1.proto:27-112 | The same for every server frame |
| `Wire.CodeIsNarrow` | crates/cherenkov-protocol/proto/v1.proto:108-112 | An error code of more than 32 bits is read as its low 32 bits |
| `Wire.NestingLimit` | crates/cherenkov-protocol/src/frame.rs:246-249 | Unknown groups are passed over up to a hundred deep and make the frame malformed beyond |
| `Utf8.ValidIffEncodings` | crates/cherenkov-protocol/src/frame.rs:246-261 | The text that strings may hold is exactly the concatenations of the UTF-8 encodings of Unicode scalar values |
| `Wire.MissingKindIffAllUnknown` | crates/cherenkov-protocol/src/frame.rs:384-411 | Decoding reports a missing kind if and only if the bytes are complete fields none of which is known; the empty message is one |
| `Wire.UnknownFieldsIgnored` | crates/cherenkov-protocol/src/frame.rs:246-261 | Well-formed fields with unknown numbers, groups included, inserted after any decodable prefix of a frame do not change what it decodes to |
| `Wire.UnknownFieldsIgnoredInside` | crates/cherenkov-protocol/src/frame.rs:246-261 | The same between any two fields inside any message of a client or server frame, whatever decodable fields precede it and whatever bytes follow |
| `Protobuf.ExtrasAreUnknown` | crates/cherenkov-protocol/src/frame.rs:246-261 | Any well-formed fields with higher numbers, of every wire type, groups nested within the limit, count as unknown fields |
| `Protobuf.GroupEndsUnderItsNumber` | crates/cherenkov-protocol/src/frame.rs:246-261 | A group ended under another number is refused |
| `Protobuf.KeyIsNarrow` | crates/cherenkov-protocol/src/frame.rs:246-261 | A field key of more than 32 bits, or with field number 0, is refused |
| `Wire.NewerClientUnderstood` | crates/cherenkov-protocol/proto/v1.proto:18-66 | A client built for a schema with fields added at the end of a message is understood as the frame without them |
| `Browser.ByteBuffer.WriteVarint` | examples/echo/client.html:112-118 | Appends the canonical varint |
| `Browser.ByteBuffer.EncodeDelimited` | examples/echo/client.html:136-159 | Appends tag, length and bytes, for strings, byte arrays and messages, empty ones too |
| `Browser.ByteBuffer.EncodeUint64` | examples/echo/client.html:143-147 | Appends what the server would write for the field: nothing for 0 |
| `Browser.BuildSubscribe` | examples/echo/client.html:161-168 | The server decodes the bytes to the subscribe that was meant, for ids and lengths below 2^53 |
| `Browser.BuildPublish` | examples/echo/client.html:170-178 | The server decodes the bytes to the publish that was meant, for ids and lengths below 2^53 |
| `Browser.RoundIsExact` | examples/echo/client.html:120-130 | Rounding to the nearest JavaScript number, halfway to even, gives a number of 53 bits times a power of two, and changes exactly the numbers that are not |
| `Browser.NumberAgrees` | examples/echo/client.html:120-130 | A varint the server accepts takes the demo as many bytes as the server, and the rounded additions give the server's number if and only if that is 53 bits times a power of two |
| `Browser.ReadVarintAt` | examples/echo/client.html:120-130 | The do-while loop gives the sum with every addition rounded, and where the varint ends, and fails exactly when the bytes run out; varints of more than 146 bytes are told apart |
| `Browser.DecodeServerFrame` | examples/echo/client.html:183-196 | The method opens an envelope as the specification `Open` does, clamping a body that is too short |
| `Browser.DecodePublication` | examples/echo/client.html:198-228 | The loop reads a publication's fields as the specification `Scan` does, stopping at the first field it does not know |
| `Browser.ReadsWhatWasPublished` | examples/echo/client.html:183-228 | For every publication whose encoding is shorter than 2^53 bytes the demo opens the server's frame and reads a publication, which is exactly the one published if and only if the offset is 53 bits times a power of two and the channel name does not start with a byte order mark |
| `Browser.NextOffsetIsLost` | examples/echo/client.html:120-130 | The offset 2^53 is shown as itself and 2^53 + 1 as 2^53 |
| `Browser.MarkedNameIsLost` | examples/echo/client.html:212 | A concrete publication whose channel name the demo loses |
| `Framing.LengthReadsBack` | crates/cherenkov-transport-wt/src/lib.rs:157-180 | The length read is the length written modulo 2^32, so the same exactly when it fits 32 bits |
| `Framing.GreaterIsLater` | crates/cherenkov-transport-wt/src/lib.rs:157-163 | The length is written most significant byte first: a greater one has the greater byte where the two first differ |
| `Framing.StreamRoundTrip` | crates/cherenkov-transport-wt/src/lib.rs:154-193 | Bodies of at most 16 MiB, written one after the other, are read back in order, and reading goes on after them |
| `Framing.OversizeStops` | crates/cherenkov-transport-wt/src/lib.rs:157-183 | The first body whose length modulo 2^32 is over the limit ends the reading after exactly the bodies before it, whatever follows |
| `Framing.AnnouncedPartIsRead` | crates/cherenkov-transport-wt/src/lib.rs:157-188 | Any other body is read as its first bytes, as many as its length modulo 2^32, and reading goes on inside it; it is read whole if and only if it is within the limit |
| `Framing.CutStream` | crates/cherenkov-transport-wt/src/lib.rs:175-193 | A stream cut at any byte yields exactly the bodies that had arrived whole |
| `Framing.ArrivedIsMaximal` | crates/cherenkov-transport-wt/src/lib.rs:175-193 | Those are the most bodies whose framed bytes fit before the cut |
| `Framing.WriteAll` | crates/cherenkov-transport-wt/src/lib.rs:154-163 | The writer emits the frames' bodies in order, each after its length |
| `Framing.ChunkReader.ReadExact` | crates/cherenkov-transport-wt/src/lib.rs:176-187 | Reads exactly the next bytes of the stream however it was cut into chunks, and fails exactly when too few are left |
| `Framing.Serve` | crates/cherenkov-transport-wt/src/lib.rs:167-211 | The read loop sees the decoded bodies of the whole stream, up to and including the first that does not decode, however the stream was cut into chunks |
| `Framing.FramesArrive` | crates/cherenkov-transport-wt/src/lib.rs:167-196 | A client's frames, encoded, framed and cut into any chunks, are decoded to the same frames in the same order |
| `Query.UrlDecode` | crates/cherenkov-transport-sse/src/lib.rs:211-238 | The loop gives a text if and only if the bytes fall, one after the other, into plus signs, escapes of two hex digits (or `%+` and one), and other bytes, a percent sign among them only if no number follows it, that are read as that text and the text is UTF-8 |
| `Query.HexDigitIff` | crates/cherenkov-transport-sse/src/lib.rs:223 | The characters read as hex digits are exactly those of the two tables, with their positions as values |
| `Query.ChannelsFromRawQuery` | crates/cherenkov-transport-sse/src/lib.rs:190-209 | The names of the `channel` pairs in order, without the empty ones and those that do not decode |
| `Query.UnescapeUndoesSpelling` | crates/cherenkov-transport-sse/src/lib.rs:211-238 | However a text is escaped, byte by byte, with hex digits from the tables 0-9A-F and 0-9a-f, decoding gives the text |
| `Query.QueryRoundTrip` | crates/cherenkov-transport-sse/src/lib.rs:190-238 | A query that repeats `channel=` with names escaped in any way, mixed with channel pairs that name nothing and unrelated pairs, parses to the names in order |
| `TsText.TsTypeText` | crates/cherenkov-sdk-ts/src/tsgen.rs:88-103 | The text written for a schema is the rendering of its compiled type, and a reader of type texts with keywords of its own reads that type from it if and only if all property names in it are identifiers |
| `TsText.RenderMembers` | crates/cherenkov-sdk-ts/src/tsgen.rs:114-129 | The loop with its first-element flag writes the fields in order, separated, optional ones marked |
| `TsText.ReadsBackIff` | crates/cherenkov-sdk-ts/src/tsgen.rs:88-130 | For every type: the reader gives the type back from its text if and only if all its property names are identifiers |
| `TsText.TextIsSound` | crates/cherenkov-sdk-ts/src/tsgen.rs:88-130 | Every payload a schema accepts is described by the text written for it, if the schema guarantees its generated type and its property names are identifiers |
| `TsText.TextIsSoundIff` | crates/cherenkov-sdk-ts/src/tsgen.rs:88-130 | With such names the text describes all accepted payloads if and only if the schema guarantees its generated type |
| `TsText.TextIsExact` | crates/cherenkov-sdk-ts/src/tsgen.rs:88-130 | On the schemas that TypeScript can say exactly the text describes the accepted payloads and no others |
| `TsGen.Sound` | crates/cherenkov-sdk-ts/src/tsgen.rs:88-130 | Every JSON value that a schema accepts has every type the schema guarantees, through nested arrays, first items and objects, whatever other keywords restrict it |
| `TsGen.FitsIff` | crates/cherenkov-sdk-ts/src/tsgen.rs:88-130 | For every type and every schema that declares no property twice: all accepted values have the type, the keywords the generator ignores set aside, if and only if the schema guarantees it, a condition computed on schema and type |
| `TsGen.SoundIff` | crates/cherenkov-sdk-ts/src/tsgen.rs:88-130 | So the generated type has every accepted value if and only if the schema guarantees the generated type |
| `TsGen.UniformFits` | crates/cherenkov-sdk-ts/src/tsgen.rs:88-130 | A schema whose arrays give their first items no schemas of their own, or generate `unknown` for their items, guarantees its generated type |
| `TsGen.Tightest` | crates/cherenkov-sdk-ts/src/tsgen.rs:88-130 | On schemas without `prefixItems`, `false` and required names that are not properties, the generated type is within every type the schema guarantees |
| `TsGen.Exact` | crates/cherenkov-sdk-ts/src/tsgen.rs:88-130 | On schemas without integers, type lists, required names that are not properties, `prefixItems`, untyped keywords and the schema `false`, a value is accepted if and only if it has the generated type, an object type being read as the JSON objects of its shape |
| `TsGen.PrefixItemsAreUnsound` | crates/cherenkov-sdk-ts/src/tsgen.rs:94-100 | A concrete schema with `prefixItems` that accepts a value without the generated type |

## Left out

- The handlers of `hub.rs` and the read loops of the transports are steps of a machine over values rather than methods of a class, because their interleaving is the subject. Aliasing of the shared session objects shows only as the session ids that handlers carry.
- Interleavings inside the code between two awaits, including the short windows in `remove_subscription` of the registry and in `sender_for` and `publish` of the broker.
- A handler abandoned half-way because its connection's future was dropped.
- Delivery of the kick notification. A kick is modelled by its effect on the registry.
- The writer tasks that drain outboxes into sockets, and sockets, HTTP, TLS and QUIC. Claims about delivery stop at the outbox. An outbox is unbounded here, so a handler waiting for a full one is a handler that takes no step.
- Channel kinds other than pub/sub in the recovery results. Index, balance, authorisation, reply and delivery order results hold for any kind, except that `on_unsubscribe` is taken not to fail and `on_subscribe` to fail only for an empty name.
- The Redis and NATS brokers and the CRDT channel kinds, which are clients of libraries that are not part of this model.
- Token verification, schema validation, access rules and namespace lookup, which are parameters of the model.
- HubSse.AllOrNothing: the handler waits for the step that puts a reply into the outbox, which the server-sent events transport does not take. It is no part of what is stated.
- HubStale.LeavesEntryIff: does not cover a closed outbox with a channel kind other than pub/sub, whose history need not grow old, so that a subscribe may never find its replay empty.
- The kind of a wire decoding error. All malformed input is one error, and only a missing kind is told apart.
- Varints of more than 146 bytes in the browser demo, which the server never writes, where the sum may become infinite, and what the browser's text decoder makes of ill-formed UTF-8, which is a parameter.
- MemoryBroker.MemoryBroker.Poll: the positions of the broadcast ring are unbounded here, and the ring's size is the capacity rounded up to a power of two, as the library that provides the ring does.
- TsGen.Exact: TypeScript's structural reading of object types, under which a string has a type with a `length`, is not modelled.
- Generated names and the rest of the generated TypeScript module, which are string templates. Property names are written as they are; what TypeScript makes of a text whose names are no identifiers is not modelled.
- The admin API, configuration, metrics, logging and the command line.
