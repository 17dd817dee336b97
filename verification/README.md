# EPX, modelled and proved

EPX is an encrypted protocol between a client and a host on one machine. After a signed handshake
the two ends share two keys, seal every frame under a counter and an epoch, and may rotate the keys
in the middle of a session while several threads go on sending. On top of that the host offers
unary endpoints, streams and topics, limits rates, and decides who may call what.

This project models that logic and proves what it is for. The parts, from the wire upwards:

- **Bytes, Wire, Codec, Framing** - big-endian integers, payload layouts with the v1/v2 switch, the
  cursor decoders, length-prefixed frames over a byte stream that may end anywhere.
- **Transcripts, Aead, Handshake** - what is signed, what nonces and associated data separate, the
  two handshake procedures over bytes, and agreement over a channel that may alter everything.
- **HandshakeOutcome** - what a handshake, altered or not, leaves the session with.
- **Endpoints, Connections, Session, SessionSteps, SessionAdversary, SessionOrdered, SessionRotation,
  SessionNonces, SessionVersions** - the session. `Endpoints` says what one lock hold or one loop iteration does to
  either end, `Connections` has the two ends as objects whose methods do exactly that, `Session`
  puts them in a world with both logs of sealed frames and states one invariant `Core` over both
  ends and both logs. `SessionSteps` proves that every step keeps it. `SessionAdversary` lets
  anything arrive in any order; `SessionOrdered` has two ordered, loss-free queues, the transport that
  key rotation is designed for, and `SessionRotation` proves that over it rotations start and go through.
- **Topic, Subscriptions, TopicEntries** - the broadcaster, the two records of a subscription, and
  that the operations of the first are steps of the second.
- **Sinks, Dispatch, DispatchProgress, EndpointKinds** - the client's callbacks, and requests with their
  answers: that an answer is the right one, and that there is one.
- **TokenBuckets, RateLimits** - the token bucket in real arithmetic and its two uses.
- **Text, Hex, Authorization, Credentials, Registry** - the text files, and what is decided from them.

Ciphers and signatures are ideal. A sealed body remembers key, counter, epoch and type and opens
under exactly these; `Aead.BytesAgreeWithBoxes` shows that the byte layouts agree with that. Session
keys are terms over two ephemerals. Signatures verify only what was signed. Concurrency is a
transition system in which each lock hold is one step. Outcomes of writes, clocks, random choices,
liveness of processes and answers of users are parameters of the steps. Honest runs draw ephemerals
and nonces that no run drew before, and ephemerals that do not happen to begin with a transcript tag
(`Handshake.Legal`).

Three things the source says are not quite so, and are proved as they are:

- A REKEY is on the wire before the client has stored the ephemeral it offers (src/client.cpp:108-112),
  and the reader does not take the write mutex. `SessionOrdered.NoFrameDropped` names this window as
  the only way in which an honest acknowledgement ends a session, and
  `SessionOrdered.AckOvertakesStore` is a run that goes through it.
- A subscription made after the reader has swept its table is never told that the feed is over,
  although `subscribe` may return normally: `Sinks.EveryoneIsTold` and `Sinks.LateSubscriber`.
- `unsubscribe` erases the sink without a closing call (src/client.cpp:701-717), while
  include/epx/epx.hpp:657-662 counts it among the closing events. The model follows the code:
  `Sinks.EveryoneIsTold` says exactly who is told, and `Sinks.UnsubscribedIsNotTold` has a run for
  either case.

Version 1 of the handshake promises less than version 2, and the model says how much less: its
signatures cover neither versions nor identities, so stripping both extensions goes unnoticed
(`Handshake.BothStripped`), and its transcripts carry no tag, so for a service with a name of more
than 40 bytes a longer signed transcript can stand for a hello (`Handshake.TaggedEphemeralTaken`).
A v1 ack also reads as a v1 hello for a service named like the client's nonce
(`Transcripts.AckV1IsHelloV1`), so a request for such a service can stand for an answer
(`Handshake.OwnRequestTaken`).

And these laws hold under conditions that are stated exactly: frames beyond the reader's cap
(`Framing.FrameExact`), names and data too long for their length fields (`Wire.RequestExact`), a v1
hello followed by 65 bytes or more (`Wire.HelloRoundTrip`), endpoints with a newline
(`Authorization.SaveThenLoad`; `Authorization.AdmittedOnlyIfYes` says for which names of a host's own
endpoints that matters to another endpoint), scopes that are empty or have a newline (`Credentials.SurvivesIff`),
entries with commas and newlines (`Registry.LookupRecoversIff`), and 2^64 frames under one key
(`SessionNonces.NoNonceReuse`).

## Model

| member | source | states |
|---|---|---|
| SessionOrdered.NoFrameDropped | src/client.cpp:176-236 | in every interleaving of sends, rotations and probes over ordered loss-free channels, the next sealed frame of each channel opens, the host goes on reading, and the client too unless told why not or an ack overtakes the stored offer |
| SessionOrdered.NothingLost | src/host.cpp:535-594 | accepted followed by in flight is exactly what was sealed, in both directions |
| SessionOrdered.EpochWindows | src/host.cpp:567-594 | in every reachable state epochs of the two ends differ by at most one and never wrap; each channel holds at most two epochs, in order, also the one to a client that has given up; a pending receive key is never overwritten |
| SessionOrdered.KeysInFlight | src/client.cpp:189-200 | every frame in flight is sealed under the receiver's key or pending key, or, towards the client, under the key it is switching to or will derive from its outstanding offer; none under a wiped one; what a client that gave up leaves unread is under the keys of its epoch and the next |
| SessionOrdered.AckOvertakesStore | src/client.cpp:108-113 | a run in which the ack is read before the offer is stored, and the client gives up |
| SessionOrdered.HostOpensNext | src/host.cpp:535-561 | the client's next frame passes the host's check and is of no later epoch than the client's |
| SessionOrdered.MoveInv | src/host.cpp:186-203 | every move over ordered channels keeps the invariant of ends, logs and queues |
| SessionRotation.OfferPossibleIff | src/client.cpp:96-114 | in every reachable state the client may offer a rotation if and only if the session is version 2, the epoch is below 255 and no rotation is under way |
| SessionRotation.RotationCompletes | src/client.cpp:96-114 | from any such state in which both ends read and no ERROR waits, the offer, deliveries and the switch empty both queues and leave both ends in the next epoch, with mirrored keys made of the offered ephemeral |
| SessionRotation.RotationsSettle | src/host.cpp:579-600 | in every run, when nothing is in flight and both ends read, no offer is unanswered, and the two ends are in one epoch with mirrored keys, or will be once the client has switched |
| SessionRotation.SentArrives | src/client.cpp:119-125 | whenever the host reads, a message the client sends is the last one accepted once the host has read what is on its way |
| SessionRotation.SentBackArrives | src/host.cpp:155-164 | the same from the host to a client that reads |
| SessionRotation.StoppedHostIsSilent | src/host.cpp:155-186 | a host that failed a write or a probe, or was closed, sends nothing more |
| Endpoints.SealedOpensIff | src/client.cpp:176-202 | a sealed frame opens, to what was sealed, exactly under its key, counter and epoch |
| Endpoints.ClientReadsOnIff | src/client.cpp:204-247 | the reader goes on after a frame if and only if it passes it over, or it opens, is no ERROR and, if an ack, answers a remembered offer |
| Endpoints.HostReadsOnIff | src/host.cpp:567-600 | the host's loop goes on after a frame if and only if it passes it over, or it opens and, if a REKEY, could be answered; BYE ends it |
| SessionAdversary.ClientAcceptsPrefix | src/client.cpp:176-202 | whatever the channel does, what the client accepted is a prefix of what the host sealed |
| SessionAdversary.HostAcceptsEpochPrefixes | src/host.cpp:535-561 | whatever the channel does, what the host accepted is, epoch by epoch, a prefix of what the client sealed |
| SessionAdversary.RunCore | src/host.cpp:190-203 | the invariant over both ends and both logs holds in every run with an adversarial channel |
| SessionAdversary.ClientReceiveAnything | src/client.cpp:204-247 | whatever frame the network gives the client's reader, the invariant stays |
| SessionAdversary.HostReceiveAnything | src/host.cpp:567-600 | whatever frame the network gives the host, the invariant stays |
| SessionNonces.NoNonceReuse | src/client.cpp:81-88 | in every run, failed writes and failed acks included, no nonce repeats under a key if and only if no key seals more than 2^64 frames (section 3.1 of RFC 5116) |
| SessionNonces.NoncesDifferIff | src/crypto.cpp:78-85 | counters that wrap at 2^64 differ over a log exactly when every key is used at most 2^64 times |
| SessionVersions.AlikeOrDeaf | src/crypto.cpp:129-163 | two ends whose peer ephemerals are not the network's either are established, with one version and mirrored keys, or never accept a sealed frame |
| SessionVersions.VersionsMustMatch | src/crypto.cpp:129-163 | in particular, ends at different versions never accept a sealed frame |
| SessionSteps.HostSwitches | src/host.cpp:190-203 | acknowledging a rotation and switching keys keeps the invariant, with the next epoch in the history |
| SessionSteps.ClientOfferCore | src/client.cpp:96-114 | offering a rotation keeps the invariant |
| SessionSteps.ClientSwitchCore | src/client.cpp:224-235 | switching to the derived keys keeps the invariant |
| SessionSteps.HostSendCore | src/host.cpp:155-164 | a send by any publisher keeps the invariant |
| SessionSteps.RekeyTaken | src/host.cpp:579-594 | a REKEY the host takes is the outstanding offer of a client in the same epoch, with epoch space left, and opening it leaves no pending key |
| Session.EstablishedCore | src/handshake.cpp:67-71 | the invariant holds when a handshake has completed |
| Connections.Connection.constructor | src/client.cpp:40-59 | a connection starts at epoch 0 and counter 0 in both directions |
| Connections.Connection.SendFrameLocked | src/client.cpp:81-88 | the frame is sealed under the current key, counter and epoch, and the counter moves on even when the write fails |
| Connections.Connection.OfferRekey | src/client.cpp:106-108 | the REKEY goes out under the old epoch; a failed write leaves no offer |
| Connections.Connection.StoreOffer | src/client.cpp:109-113 | the offer becomes pending and the rotation in progress |
| Connections.Connection.MaybeBeginRekeyLocked | src/client.cpp:96-114 | a REKEY is sealed exactly when the policy says so, the session is version 2, no rotation is in progress and the epoch is below 255 |
| Connections.Connection.OpenFrame | src/client.cpp:176-202 | opens and advances exactly as the checked open of the model, and changes nothing otherwise |
| Connections.Connection.ReadFrame | src/client.cpp:204-247 | one iteration of the reader is one receive step of the model |
| Connections.Connection.SwitchKeys | src/client.cpp:224-235 | the write-mutex hold for an ack is the switch step of the model |
| Connections.ConnState.constructor | src/host.cpp:502-533 | the host's end starts at epoch 0 and counter 0 |
| Connections.ConnState.SendSealed | src/host.cpp:155-164 | a live end seals one frame and dies of a failed write; a dead one seals nothing |
| Connections.ConnState.SendRekeyAckAndSwitch | src/host.cpp:190-203 | the ack is under the old epoch; the keys switch exactly when it was written |
| Connections.ConnState.OpenFrame | src/host.cpp:535-561 | opens and advances exactly as the checked open of the model |
| Connections.ConnState.ReadFrame | src/host.cpp:567-600 | one iteration of the receive loop is one receive step of the model, and an ack is sealed exactly for an acceptable REKEY |
| Handshake.Agreement | src/handshake.cpp:12-132 | a client that completes at version 2 or more with an honest server was accepted by a run of it with the same version - the smaller of both true maxima -, identities, nonces and client ephemeral, and mirrored keys |
| HandshakeOutcome.AlikeOrDeaf | src/handshake.cpp:12-132 | for any alteration of the handshake frames, a client run and a server run that complete with honest identities have the same version and mirrored keys, or neither ever accepts a sealed frame of the connection |
| HandshakeOutcome.SameVersion | src/handshake.cpp:56-71 | a client at version 2 or more that took this server run's ephemeral has its version and its keys |
| Handshake.ClientTakesSignedEphemeral | src/handshake.cpp:41-49 | a client that completes with an honest identity, at any version, took an ephemeral of that identity: one it answered this nonce with, or one it sent to a service named like the nonce |
| Handshake.OwnRequestTaken | src/handshake.cpp:41-49 | a run in which a client takes, with no server run at all, the ephemeral of a request for a service named like its nonce |
| Handshake.ServerTakesSignedEphemeral | src/handshake.cpp:83-102 | a server that accepts an honest identity took an ephemeral of that identity if and only if it does not begin with a tag, which it can only at version 1 and for a name of more than 40 bytes |
| Handshake.TaggedEphemeralTaken | src/handshake.cpp:90-91 | a run in which a server with such a name takes an ephemeral nobody generated |
| Handshake.HandshakeHappens | src/handshake.cpp:12-132 | for any request there is a run, with signatures that verify only what was signed, in which both ends complete at the smaller maximum |
| Handshake.HonestHandshakeCompletes | src/handshake.cpp:12-132 | left alone, both ends complete at the smaller maximum with each other's identity and mirrored keys |
| Handshake.StrippedAck | src/handshake.cpp:56-65 | an ack without its extension leaves the client at v1 and the server at v2 |
| Handshake.BothStripped | src/handshake.cpp:51-101 | without both extensions the two ends complete alike at version 1, with mirrored keys, whatever their maxima |
| Handshake.DowngradedIffStripped | src/handshake.cpp:51-65 | a client of version 2 or more that completes with an honest server that always speaks it is below the smaller maximum if and only if its ack lost its extension or named less, and the answering server run is at version 1 if and only if the same befell the hello |
| Handshake.ClientCompletesIff | src/handshake.cpp:33-65 | a client completes if and only if the frame read is an ack to its nonce that says yes, from a trusted identity, with the signatures that the version needs |
| Handshake.ServerAcceptsIff | src/handshake.cpp:74-132 | a server answers exactly the hellos for its service at a version it speaks, and accepts, with status 0, exactly those of trusted identities with the signatures that the version needs; all others get status 1 |
| Handshake.ClientHandshake | src/handshake.cpp:12-72 | writes exactly the hello, and completes exactly when it could be written and the ack that arrives is acceptable, with a trusted peer |
| Handshake.ServerHandshake | src/handshake.cpp:74-132 | answers exactly the hellos it should, with exactly that ack, and completes exactly when the hello is welcome and the ack could be written, with a trusted peer |
| Handshake.Negotiate | src/protocol.hpp:29-32 | the largest version both ends know, 0 when there is none |
| Transcripts.HelloV2Injective | src/protocol.cpp:122-135 | a v2 hello transcript determines all its fields |
| Transcripts.AckV2Injective | src/protocol.cpp:137-156 | a v2 ack transcript determines all its fields |
| Transcripts.CredentialInjective | src/credentials.cpp:40-51 | a credential statement determines all its fields |
| Transcripts.Disjoint | src/protocol.cpp:122-156 | no v2 hello, v2 ack or credential statement is another one |
| Transcripts.V1TaggedIff | src/protocol.cpp:31-49 | a v1 transcript begins with a tag if and only if its ephemeral does |
| Transcripts.AckV1IsHelloV1 | src/protocol.cpp:31-49 | a v1 ack is a v1 hello if and only if ephemeral and nonce agree and the service is named like the client's nonce |
| Transcripts.HelloV1Injective | src/protocol.cpp:31-39 | a v1 hello transcript determines its fields |
| Aead.MakeNonce | src/crypto.cpp:78-85 | the nonce is the counter, big-endian, followed by zeros |
| Aead.FillAd | src/crypto.cpp:129-132 | the associated data is type and counter, and nothing else is touched |
| Aead.NonceInjective | src/crypto.cpp:78-85 | counters with the same nonce are the same |
| Aead.AdInjective | src/crypto.cpp:129-163 | associated data determines version, type, counter and, in v2, epoch |
| Aead.BytesAgreeWithBoxes | src/crypto.cpp:135-163 | a frame opens exactly under the key, counter, type and epoch it was sealed with, on bytes as in the model, and never across the two layouts |
| Bytes.PutU64 | src/protocol.hpp:64-66 | appends the big-endian form |
| Bytes.GetU64 | src/protocol.hpp:70-74 | reads the value of the first eight bytes |
| Bytes.GetU32 | src/protocol.hpp:67-69 | reads the value of the first four bytes |
| Bytes.RoundTrip64 | src/protocol.hpp:64-74 | 64-bit integers survive |
| Bytes.RoundTrip32 | src/protocol.hpp:60-69 | 32-bit integers survive |
| Wire.RequestOffsets | src/protocol.cpp:173-181 | where the fields of a request are |
| Wire.ResponseOffsets | src/protocol.cpp:196-203 | where the fields of a response are |
| Wire.ChunkOffsets | src/protocol.cpp:216-225 | where the fields of a stream chunk are |
| Wire.HelloOffsets | src/protocol.cpp:51-64 | where the fields of a hello are, and that the extension is there from version 2 |
| Wire.HelloAckOffsets | src/protocol.cpp:86-100 | where the fields of an ack are |
| Wire.RequestRoundTrip | src/protocol.cpp:173-194 | a request that fits its length fields is read back, and what follows is left |
| Wire.RequestExact | src/protocol.cpp:16-28 | a request survives if and only if name and data fit their length fields |
| Wire.RequestTruncated | src/protocol.cpp:183-194 | every truncation of a request is refused |
| Wire.ResponseRoundTrip | src/protocol.cpp:196-214 | a response is read back, and what follows is left |
| Wire.ResponseExact | src/protocol.cpp:196-214 | a response survives if and only if its data fits |
| Wire.ResponseTruncated | src/protocol.cpp:205-214 | every truncation of a response is refused |
| Wire.ResponseCanonical | src/protocol.cpp:205-214 | what a response was read from is its own encoding and the rest |
| Wire.ChunkRoundTrip | src/protocol.cpp:216-239 | a stream chunk is read back, and what follows is left |
| Wire.ChunkExact | src/protocol.cpp:216-239 | a chunk survives if and only if endpoint and data fit |
| Wire.ChunkTruncated | src/protocol.cpp:227-239 | every truncation of a chunk is refused |
| Wire.ErrorRoundTrip | src/protocol.cpp:158-171 | an error is read back |
| Wire.HelloRoundTrip | src/protocol.cpp:51-84 | a hello is read back, ignoring what follows, if and only if it is v2 or too little follows to pass for an extension |
| Wire.HelloAckRoundTrip | src/protocol.cpp:86-120 | the same for an ack |
| Wire.V1ReaderSeesV1Fields | src/protocol.cpp:51-120 | a v1 peer, which stops at the v1 signature, recovers every v1 field of a v1 or v2 hello or ack, whatever follows |
| Codec.PutStr8 | src/protocol.cpp:16-20 | appends the length in one byte, cut to its low eight bits, and the text |
| Codec.GetStr8 | src/protocol.cpp:21-28 | moves the cursor over exactly one string, within the input, or fails |
| Codec.EncodeHello | src/protocol.cpp:51-64 | builds the layout of a hello |
| Codec.DecodeHello | src/protocol.cpp:66-84 | the cursor decoder computes the parser, and never reads outside its input |
| Codec.EncodeHelloAck | src/protocol.cpp:86-100 | builds the layout of an ack |
| Codec.DecodeHelloAck | src/protocol.cpp:102-120 | the cursor decoder computes the parser |
| Codec.EncodeRequest | src/protocol.cpp:173-181 | builds the layout of a request |
| Codec.DecodeRequest | src/protocol.cpp:183-194 | the cursor decoder computes the parser |
| Codec.EncodeResponse | src/protocol.cpp:196-203 | builds the layout of a response |
| Codec.DecodeResponse | src/protocol.cpp:205-214 | the cursor decoder computes the parser |
| Codec.EncodeStreamChunk | src/protocol.cpp:216-225 | builds the layout of a chunk |
| Codec.DecodeStreamChunk | src/protocol.cpp:227-239 | the cursor decoder computes the parser |
| Framing.FrameOffsets | src/framing.cpp:5-19 | where the fields of a frame are, and what its length counts |
| Framing.FrameReads | src/framing.cpp:5-37 | a written frame is read back and the stream behind it is left alone |
| Framing.FrameExact | src/framing.cpp:11-26 | the writer does not check the reader's cap: a written frame is read back if and only if it is within it |
| Framing.FrameTruncated | src/framing.cpp:21-29 | part of a frame is no frame |
| Framing.CutStream | src/framing.cpp:5-37 | a stream cut anywhere reads back to exactly its complete frames |
| Framing.ConnectionReads | src/framing.cpp:5-37 | a handshake frame and any session frames, in either layout, are read back |
| Framing.CutConnection | src/framing.cpp:5-37 | cut anywhere, the handshake frame and exactly the complete session frames are read back |
| Framing.Transport.WriteFrame | src/framing.cpp:5-19 | puts exactly the frame on the wire, or a proper part of it when the transport fails |
| Framing.Transport.ReadNext | src/framing.cpp:21-37 | takes exactly one frame off the stream, or none |
| Topic.DeliveryLog | src/host.cpp:221-285 | after any history a subscriber was sent exactly the messages from its subscription to its removal, numbered from 0, with at most one final chunk at the end |
| Topic.StepInv | src/host.cpp:230-284 | every operation keeps what each subscription has been sent in step with what was published |
| Topic.PublishServes | src/host.cpp:230-242 | a publish writes the message to, keeps and counts exactly the subscribers whose connection is alive and had no write fail in this round; all other logs stay, and exactly the connections with a failed write are dead |
| Topic.HeartbeatServes | src/host.cpp:279-284 | a heartbeat keeps exactly those, and writes no chunk |
| Topic.CloseServes | src/host.cpp:271-277 | the end of a feed writes the final chunk to exactly those |
| Topic.DeadGetNothing | src/host.cpp:233-241 | the subscriptions of a dead connection get nothing more and are forgotten by the next publish |
| Topic.TopicHandle.Publish | src/host.cpp:230-242 | sends the next chunk to everyone alive, prunes the rest, and returns how many are left |
| Topic.TopicHandle.Add | src/host.cpp:249-252 | a new subscription starts at number 0 |
| Topic.TopicHandle.Remove | src/host.cpp:254-259 | ends the first matching subscription only |
| Topic.TopicHandle.RemoveConn | src/host.cpp:261-266 | ends all subscriptions of one connection only |
| Topic.TopicHandle.Heartbeat | src/host.cpp:279-284 | prunes exactly those whose probe fails |
| Topic.TopicHandle.CloseAll | src/host.cpp:271-277 | sends everyone the final chunk and forgets them |
| TopicEntries.ChangesAreSteps | src/host.cpp:249-266 | the operations of the broadcaster change its list as the account of subscriptions says |
| TopicEntries.PrunesAreSteps | src/host.cpp:230-284 | publishing, probing and closing only prune |
| Subscriptions.RecordsAgree | src/host.cpp:699-712 | in every state of every run a connection's subscriptions in the topics are among those it remembers, but for the one it is about to write down; these never exceed the limit; and no topic refers to a connection that has finished |
| Subscriptions.StepAgrees | src/host.cpp:671-683 | every step of the connection's thread or of a publisher keeps the two records in agreement |
| Subscriptions.SubscribeAdds | src/host.cpp:699-712 | subscribing adds one entry to both records and changes no other, unless the connection is at its limit |
| Subscriptions.UnsubscribeRemoves | src/host.cpp:671-683 | unsubscribing takes the first subscription under this id out of both records and changes no other |
| Subscriptions.Topics.Subscribe | src/host.cpp:699-712 | adds to both records, one after the other, unless the limit refuses |
| Subscriptions.Topics.Unsubscribe | src/host.cpp:671-683 | removes the first subscription under this id from both records |
| Subscriptions.Topics.Finish | src/host.cpp:746-750 | detaches from every topic, one after the other |
| Sinks.SubscriberTrace | src/client.cpp:252-341 | what a subscriber is called with is messages and at most one end, and is what was received for it |
| Sinks.NothingAfterTheEnd | src/client.cpp:262-280 | after the end a subscriber is never called again |
| Sinks.EveryoneIsTold | src/client.cpp:321-341 | when the reader has stopped, a subscriber has seen the end if and only if it registered before the sweep and no user thread erased its sink before the end was at hand |
| Sinks.UnsubscribedIsNotTold | src/client.cpp:701-717 | a run in which an unsubscribed subscriber is never told, and one in which it is told because its end was being delivered |
| Sinks.ChunkIsDelivered | src/client.cpp:252-280 | a chunk for a registered sink is its next call, and only the end of a subscription takes it out of the table |
| Sinks.RefusalIsTold | src/client.cpp:301-319 | a refused subscription gets exactly one closing call, and is out of the table |
| Sinks.SweptOnce | src/client.cpp:326-341 | a subscription registered when the reader ends gets exactly one more call, the end |
| Sinks.LateSubscriber | src/client.cpp:719-756 | a run in which a subscription made after the sweep is never told |
| Sinks.SinkTable.Add | src/client.cpp:719-735 | registers a sink under a fresh id |
| Sinks.SinkTable.EraseSink | src/client.cpp:701-708 | erases it without a call |
| Sinks.SinkTable.OnChunk | src/client.cpp:252-280 | the reader's handling of a chunk is its look-up, its call and its erasing, in this order |
| Sinks.SinkTable.OnRefusal | src/client.cpp:301-319 | a refused subscription is erased and then told |
| Sinks.SinkTable.Exit | src/client.cpp:321-342 | exactly the subscriptions in the table are erased, and each gets exactly one closing call |
| Dispatch.GetReturnsItsOwnResult | src/client.cpp:462-519 | however a get ends, other than by time-out or loss, it reports what became of its own request: data is the result of the handler, for an authorized caller, and each error has its own cause |
| Dispatch.OneAnswer | src/host.cpp:652-744 | a request is answered by nothing, one response or one numbered chunk stream with at most one last chunk, never both; a oneway request never gets a response |
| Dispatch.GetReportsTheAnswer | src/client.cpp:489-518 | the outcome of a get is determined by the verdict of the host on its request |
| Dispatch.SentOnce | src/client.cpp:466-477 | a request id is on the channel at most once, with the request it was drawn for |
| Dispatch.BooksKept | src/client.cpp:462-519 | every step keeps ids, requests and the host's progress in order |
| Dispatch.MoveFine | src/host.cpp:652-744 | every step keeps the answers to one request well formed |
| Dispatch.StreamFramesRun | src/host.cpp:725-733 | what a stream handler writes is a numbered run of its chunks, in order, with the last chunk at the end |
| DispatchProgress.AnsweredIff | src/host.cpp:652-744 | while the host lives, a handled request has exactly one RESPONSE if and only if the endpoint is missing, the caller not authorized, the endpoint unary or taking a stream, or a topic at its limit; with status and data case by case |
| DispatchProgress.GetEndsWithItsResult | src/client.cpp:489-518 | a get collected after its RESPONSE was read ends with the data of the handler, or the reason there is none |
| DispatchProgress.GetGoesThrough | src/client.cpp:462-519 | from any reachable quiet state asking, posting, serving, reading and collecting are possible, the get ends with what the host finds, and the state is quiet again |
| DispatchProgress.LossEndsEveryGet | src/client.cpp:489-503 | once the reader has stopped every waiting get ends, with its answer or as lost |
| DispatchProgress.FailedIsGivenUp | src/client.cpp:479-483 | a request whose write failed is never sent, and its get ends as lost |
| DispatchProgress.RequestStarts | src/host.cpp:699-735 | a subscription or a stream starts exactly for an authorized request to a topic that exists, within the limit, or to a streaming endpoint |
| DispatchProgress.ChunksCarryTheData | src/host.cpp:725-733 | the chunks of a stream or a feed carry exactly what was written for it while the host lived, in order |
| DispatchProgress.UnsubscribeDrops | src/host.cpp:671-683 | the internal endpoint drops exactly the subscription its eight bytes name, and answers nothing |
| Dispatch.RequestLoop.Handle | src/host.cpp:652-744 | one iteration of the host loop answers as its verdict says, and changes the subscriptions accordingly |
| Dispatch.RequestLoop.Stream | src/host.cpp:725-733 | the frames of a stream handler, numbered in 32 bits |
| Dispatch.OutputStream.Write | src/client.cpp:625-634 | the next chunk of a numbered run, and nothing once the stream is finished |
| Dispatch.OutputStream.Finish | src/client.cpp:636-645 | the last chunk, exactly once |
| Dispatch.PendingTable.Begin | src/client.cpp:466-478 | the start of a get is the asking step: a fresh id, a request of its own, and an empty slot |
| Dispatch.PendingTable.OnResponse | src/client.cpp:289-297 | reading a response is the reading step: it fills the slot of the get that waits for it, and tells whether one does |
| Dispatch.PendingTable.Fail | src/client.cpp:479-483 | a failed write is the failing step: the slot goes and the get ends with a transport error |
| Dispatch.PendingTable.End | src/client.cpp:490-518 | the end of a get is the collecting or the timing-out step, and what it returns is the recorded outcome |
| TokenBuckets.WindowBound | src/host.cpp:79-102 | in any window of any run at most burst + rate * T attempts get a token |
| TokenBuckets.ServedIffConforming | src/host.cpp:79-102 | from a full bucket every attempt gets a token if and only if the attempts conform to that curve |
| TokenBuckets.RefillTwice | src/host.cpp:85-90 | an extra refill in between changes nothing |
| TokenBuckets.ReadyIffWaited | src/host.cpp:97-101 | from now on a token is there if and only if the waiting time is over |
| TokenBuckets.TokenBucket.RefillNow | src/host.cpp:85-90 | adds what the time since is worth, up to the burst |
| TokenBuckets.TokenBucket.TryTake | src/host.cpp:91-95 | takes one token exactly when one is there |
| TokenBuckets.TokenBucket.SecondsUntilToken | src/host.cpp:97-101 | how long until one is there |
| RateLimits.DelayedTakesOne | src/host.cpp:641-648 | a delayed request finds its token and takes exactly one |
| RateLimits.ServedConform | src/host.cpp:629-650 | the requests served, the delayed ones included, conform to the curve |
| RateLimits.NeverDelayedIffConforming | src/host.cpp:629-650 | no request is delayed or refused if and only if the arrivals conform to the curve |
| RateLimits.CutIffTooManyDelays | src/host.cpp:632-640 | the connection is cut if and only if more requests in a row than the limit found no token |
| RateLimits.UsersDoNotShare | src/host.cpp:344-354 | how often a user is let in depends on its own attempts only |
| RateLimits.UserWindowBound | src/host.cpp:344-354 | in any window a user is let in at most burst + rate * T times, whatever the others do |
| RateLimits.UserNeverRefusedIffConforming | src/host.cpp:344-354 | a user is never refused if and only if its own attempts conform to the curve |
| RateLimits.RequestLimiter.constructor | src/host.cpp:520-526 | a connection starts with a full bucket |
| RateLimits.RequestLimiter.Admit | src/host.cpp:629-650 | one request through the limiter |
| RateLimits.HandshakeLimiter.AdmitConnection | src/host.cpp:344-354 | one attempt takes from the bucket of its own user, or from none when there is no limit; the buckets are those of all attempts so far, and the answer is the model's |
| Hex.HexRoundTrip | src/keystore.cpp:21-47 | keys survive their hex form |
| Hex.ReadsAsIff | src/keystore.cpp:32-47 | a text reads as a key if and only if it is its hex form up to case |
| Hex.Encode | src/keystore.cpp:21-30 | the encoding loop |
| Hex.Decode | src/keystore.cpp:32-47 | the decoding loop, including every rejection |
| Text.ReadBack | src/registry.cpp:85-114 | pieces written with their separators are read back |
| Text.LinesAppend | src/keystore.cpp:142-174 | appending to a file of complete lines appends lines |
| Text.NumberOfSigned | src/registry.cpp:85-100 | a printed number is read back |
| Authorization.LoadsTheLastSaved | src/keystore.cpp:142-174 | after any saves the last one for a peer and an endpoint is loaded: the log behaves as a map |
| Authorization.SaveThenLoad | src/keystore.cpp:142-174 | a decision is read back if and only if its endpoint has no newline, and changes no other |
| Authorization.NotAskedAgain | src/host.cpp:398-450 | no question is asked twice on a connection, and a persisted answer is never asked for again |
| Authorization.AsksAgainIff | src/host.cpp:427-447 | another connection asks again if and only if the answer was AllowOnce or the endpoint has a newline, and otherwise decides the same |
| Authorization.UncachedTiers | src/host.cpp:398-426 | on a first decision an open endpoint admits everyone, a pinned one the listed peers, a certified one those a credential covers |
| Authorization.AnswerDecides | src/host.cpp:427-447 | a stored decision stands; otherwise a question answered Deny refuses and any other answer admits, for the connection and, if it was Deny or AlwaysAllow, in the file |
| Authorization.AdmittedOnlyIfYes | src/host.cpp:398-450 | over any run from an empty file a prompting call is admitted only if its connection was let in before or the user answered this very question with anything but Deny, as long as no endpoint name spills over into a line about another |
| Authorization.AdmittedWithoutYes | src/keystore.cpp:165-174 | for any names that do spill over there is a run without such an answer |
| Authorization.SpillingNames | src/keystore.cpp:165-174 | two such names |
| Authorization.LineVerdict | src/keystore.cpp:151-160 | a saved line speaks about its own peer and endpoint only |
| Authorization.Authorizer.LoadAuthzDecision | src/keystore.cpp:142-163 | the scanning loop computes the last decision |
| Authorization.Authorizer.Authorize | src/host.cpp:398-450 | one decision, with its effect on cache, file and questions |
| Credentials.SurvivesIff | src/credentials.cpp:53-87 | a credential survives its text if and only if its scope is not empty and has no newline |
| Credentials.ParsesIff | src/credentials.cpp:64-87 | a text is read as a credential if and only if it begins with the header, every expiry in it is a number and the last line of each key gives the field |
| Credentials.StoullIff | src/credentials.cpp:79-81 | an expiry out of range is refused, a negative one wraps around |
| Credentials.AddedIff | src/host.cpp:895-911 | a text is accepted, and added, if and only if it reads as a credential whose signature verifies |
| Credentials.MintedAdmitsExactly | src/credentials.cpp:108-120 | a minted credential can be installed if and only if its scope is not empty and has no newline, and then, as the only one, admits on a first decision exactly the peer, scope and time it names |
| Credentials.AnyInstalledAdmits | src/host.cpp:416-427 | wherever a minted credential stands among those installed, it admits its peer, within its scope, until it expires |
| Credentials.OnlyTheMintedAreAdmitted | src/host.cpp:905-911 | whatever texts were installed, every admission rests on a statement that a trusted issuer minted; no handshake signature of the issuer, at any version, stands in for one |
| Credentials.AdmissionHappens | src/host.cpp:416-427 | such admissions happen, next to handshakes of the issuer |
| Credentials.ParseText | src/credentials.cpp:64-87 | the parsing loop, including every rejection |
| Credentials.AnyCovers | src/host.cpp:416-427 | the search for a credential that covers |
| Registry.LookupRecoversIff | src/registry.cpp:85-138 | an entry is recovered if and only if its process lives, its texts have no newline and no endpoint is empty or has a comma |
| Registry.LookupIff | src/registry.cpp:106-138 | an entry is found if and only if every number and key in the file reads and the last process id lives; each field is that of its last line, or its default |
| Registry.StoiIff | src/registry.cpp:116-131 | numbers that their type cannot hold are refused |
| Registry.DescribeRecoversIff | src/registry.cpp:166-188 | a host describes itself as it is if and only if its description has no newline and no endpoint name a comma or newline |
| Registry.SplitJoinIff | src/registry.cpp:64-81 | a list survives its line if and only if no item is empty or has the separator |
| Registry.JoinLoop | src/registry.cpp:64-71 | the joining loop |
| Registry.SplitLoop | src/registry.cpp:73-81 | the splitting loop |
| Registry.LookupEntry | src/registry.cpp:106-138 | the reading loop, including every rejection |

## Left out

- Sockets, pipes, directories, file permissions, renames and signals: the transport is a byte queue that may fail, files are texts, and whether a process lives is a parameter.
- The ciphers, signatures and key derivation of libsodium: they are ideal, and the rejection of degenerate public keys by `crypto_kx` is not modelled.
- The C interface, tools, examples and generated code: they hold no protocol logic.
- Connection pooling, pinning of servers and the list of known clients (src/client.cpp:344-437, src/keystore.cpp:112-135, src/keystore.cpp:176-192): single reads and writes around the core; whether a peer is listed is a parameter of a decision.
- Stopping a host and joining its threads (src/host.cpp:920-1015): ordering by the operating system; the end of a feed is modelled.
- Clock time: the rotation policy's verdict, time-outs and sleeps are parameters, constrained only by a clock that does not run backwards. Rounding of floating point in the token bucket is not modelled.
- The waiting loop of `get_stream` (src/client.cpp:536-600) and the handler side of inbound streams (src/host.cpp:596-627): what arrives and in which order is covered by `Dispatch` and `Sinks`, the stall timer is not.
- Payloads that open but do not decode end a session in the code; in the session model an opened payload always decodes. `Wire` says which byte strings do.
- Request ids are unbounded numbers in `Dispatch` and `Sinks`; the code draws them from a 64-bit counter.
- Two sources of a session's end that the code tells apart when it reports them, rate limiting and loss, are one outcome, `Transport`, in `Dispatch`.
- Handlers and access policies may change at any time; `Dispatch` takes what the host finds for each request as given.
- SessionAdversary.ClientAcceptsPrefix: assumes fewer than 2^64 frames per epoch, the number at which the wrapping counters would repeat; the ordered theorems need no such bound.
- SessionAdversary.HostAcceptsEpochPrefixes: the same bound.
- SessionRotation.RotationCompletes: is about a client that both may offer and still reads; a host that said ERROR is closing the connection.
- SessionRotation.SentBackArrives: is about a client with no rotation under way; `SessionOrdered.NoFrameDropped` covers the others frame by frame.
- DispatchProgress.GetGoesThrough: starts from a state in which nothing is on its way; `DispatchProgress.GetEndsWithItsResult` is about any.
- Authorization.AdmittedOnlyIfYes: has a condition on the names of the host's own endpoints, which `Authorization.AdmittedWithoutYes` shows to be exact.
- SessionVersions.AlikeOrDeaf: is about two ends and a network that has the frames of both and its own; frames of other connections, under keys of theirs, are not part of it. Nor is an end that was given an ephemeral of the network's: it talks to the network.
- Handshake.Agreement: is about version 2 and higher; for version 1 `HandshakeOutcome.AlikeOrDeaf` says what holds.
- HandshakeOutcome.AlikeOrDeaf: supposes that the network has no secret of an honest run, nor of an ephemeral that begins with a tag and was taken by a server; `Handshake.ServerTakesSignedEphemeral` says exactly when there is one.
- Handshake.DowngradedIffStripped: is about a server that never asked, as a client, for a service named like the nonce; such a request would read as an ack, as `Handshake.OwnRequestTaken` shows.
- Credentials.MintedAdmitsExactly: that a signature the issuer makes verifies is the ideal contract of the signature scheme, and so a condition.
- Registry.LookupRecoversIff: is about service names without a newline, which are also file names; a process id is a 64-bit `long`.
- Registry.DescribeRecoversIff: is about a live host whose service name and address have no newline.
- Wire.HelloRoundTrip: is about service names up to 255 bytes, the limit of their length byte.
