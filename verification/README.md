# A verified model of the iip multiplexing protocol

iip carries many independent request/response channels over one TCP connection.
This Dafny project models the parts of it in which a mistake in order, counting or
sharing would go unnoticed, and proves what a user of the library relies on.

| modules | model |
|---|---|
| `Packets`, `Frames`, `Statuses` | packets, the frame codec, the packet-status protocol |
| `Chunks`, `Reading`, `Merging` | cutting a message into packets, the read loops, the channel loops that merge packets |
| `Links`, `LinkProofs`, `EndToEnd` | one direction of a connection as a transition system: channel outboxes, shared write queue, bytes in flight, bytes arrived, receive queues, merge buffers |
| `Sessions`, `SessionProofs`, `Losses`, `Pipelining`, `Callers`, `Progress`, `Closing`, `Loops` | both directions, the client's uncompleted-request queue, the waiting callers, the server's replies, channels closed at either end |
| `ChannelIds`, `Deletions`, `Joint` | the channel id allocator, the agreement of the two ends, and the sessions whose channels have the ids it gives |
| `Slices`, `Lifecycle`, `ConnectionCounts` | the close cascade on the objects themselves, the connection list and its counter |
| `Weights`, `Balancing`, `Pending` | the load balancer: weights, round robin, least-pending scans, load counters |
| `Windows`, `Statistics`, `Counters`, `PathCounts`, `Counting` | the sliding-window statistics; the counters of paths, channels, connections and clients |

Transition systems take one critical section, atomic operation, channel operation or
transfer of bytes as a step, and their theorems quantify over every sequence of steps.
Counting is not part of such a step: a frame that has been written or read is counted in
later steps of its own, and `PathCounts` and `Counting` start each update of a counter in
one step and make its single additions one by one, in between those of any other update.
Code that updates objects in place is a class whose methods are proved equal to the
functions the theorems are about. MaxPathLen, the read-buffer size and the ring size are
the source's own constants; MaxPacketSize is any positive size the length field can hold, of
which the source's 16 MB is one. Go's `int64` counters wrap where that decides
the outcome (`Balancing`), its `%` and `/` truncate toward zero.

Where the code departs from what it evidently intends, the code as written is what is
modelled, and the exact condition under which it still does its job is proved:

* protocol.go:313 pushes the whole packet where the chunk was built. `SendMode` has both
  readings, `PushPacket` (as written) and `PushChunk`. Everything sent can arrive if and
  only if every message fits, which with `PushPacket` means at most MaxPacketSize bytes
  (`DeliverableIffAllFit`, `OversizeClosesConnection`).
* protocol.go:246, 256 and 313 drop the error of a push that timed out. `TimeOut` steps
  count such pushes in `lost`; a drained channel has delivered everything if and only if
  nothing was lost (`DrainedDeliversAll`), and as long as no response push times out the i-th
  caller is handed the reply to its own request if and only if no request push up to its own
  timed out (`OwnReplyIff`, `LostPushMisleads`, `QueueInStepIffNothingLost`).
* protocol.go:497, the notice to the peer that a channel is closed, is commented out: what
  the peer still sends on the channel reaches a reader that does not know it and closes the
  whole connection. Where every message has a path that ValidatePath and CreateNetPacket let
  through, nothing times out and no id is used again in the middle of a message, that is the
  only thing that makes a reader close (`RefusedIff`, `ReaderClosesIff`, `ReaderClosedIff`,
  `ClosedChannelRefused`, `ClosingBreaksConnection`), and everything can be delivered only with
  nothing on its way to a closed channel (`DeliverableIffAllFit`).
* For the same reason a closed channel's id is used again while replies to the old channel are
  still to come: these are handed to the new channel's requests (`OldRepliesComeFirst`,
  `ReusedIdMisleads`), or refused in the middle of a message (`CutIsRefused`). Answers are the
  callers' own when nothing was outstanding and nothing was lost (`EachAnswerIsItsOwn`).
* handle.go:167-209 takes the path of a reply from parsePath and nothing checks it: the reply
  arrives if and only if that path is not empty, within MaxPathLen and free of NUL
  (`ReplyArrivesIff`).
* handle.go:177-180 closes the channel before its request is answered, and protocol.go:217
  refuses to send on a closed channel: the request that deletes a channel gets no reply
  (`OneReplyIffSilent`, `NoReplyWhenClosed`, `DeleteGetsNoReply`).
* client.go:179-185 ignores the id the server returns. A caller is sure to get the one it was
  granted if and only if that is the client's only free id or, with none free, its next one
  (`GrantedIdIsUsedIff`); without closes, if and only if the callers that have taken one before
  it, whichever they are, are one fewer than the id (`GrantedInOrderIff`; see also
  `SerialisedGetsGranted`, `ClosingLosesAgreement`, `OvertakingLosesAgreement`,
  `FreedCanBeGranted`). Every id in use at the client stays live at
  the server as long as nothing is deleted there, and after deletions if and only if no caller
  under way can reach an id that is not (`ClientIdsLiveAtServer`, `StaysIncludedIff`,
  `DeletingLosesInclusion`).
* protocol.go:141 writes bytes that lines 150-152 count later, so the peer can have counted
  them first (`BytesAgree`, `ReceivedBeforeSent`); and line 671 gives every new channel object a
  counter of its own, so on an id used again the counters of the two ends agree if and only if
  those of the older objects did (`BytesConserved`, `BytesAgreeIff`, `ReuseLosesAgreement`).
* client.go:143-147 ranges over a slice that each turn splices in place: all connections
  are closed if and only if there are at most two (`SweepClosesAllIff`).
* lbclient.go:104 reads the connection count before the lock is taken, and
  client.go:212-250 reads the list length in another critical section than the append
  (`EmptiedAfterCheck`, `LimitIsOverrun`).
* statis.go:254-257 wraps at 300 on a ring of 301 slots (`ReportExactIff`, `ReportMisses`).
* protocol.go:869 counts a packet the server has read on its channel only, not on the
  connection (`ServerTotalsIff`, `ServerTotalsThroughoutIff`).
* server.go:238-245 replaces the counter of a path that is registered again: the total is the
  sum of the paths if and only if no path on which anything had been counted was
  (`TotalAgreesIff`, `RegisteredAgain`).
* lbclient.go:504-510 clears a backend's error only while the backend is paused, which a request
  that has got as far as a channel has already ended (`ErrorIsKept`).
* lbclient.go:523 says a weight is below 100; the code (line 547) accepts 100.

## Model

| member | source | states |
|---|---|---|
| `Frames.CreateNetPacket` | protocol.go:73-95 | the bytes appended field by field are the frame layout; oversized data or path is an error |
| `Frames.FieldsAt` | protocol.go:83-95 | the place of every field in a frame, the id and the length with the most significant byte first |
| `Frames.ReadPacketRoundTrip` | protocol.go:73-133 | an encodable packet is read back whole, whatever follows it, if and only if its path holds no NUL |
| `Frames.FramesArePrefixFree` | protocol.go:73-95 | no frame is a proper prefix of another and encoding is injective |
| `Statuses.GrammarAccepted` | protocol.go:162-198 | every prefix of a sequence of whole messages passes the status check |
| `Statuses.AcceptedInGrammar` | protocol.go:162-198 | whatever passes without a close status is such a prefix |
| `Statuses.StatusGrammar` | protocol.go:162-198 | the check accepts exactly the prefixes of (C1 or C0 C2\* C3)\* (S5, S4, S6, S7 for responses) followed by any number of close statuses |
| `Chunks.ChunksFromShape` | protocol.go:268-328 | from any position on, the chunks are the rest of the data in order with statuses middle\*, last |
| `Chunks.ChunksOfMessage` | protocol.go:268-328 | a message is cut into as many non-empty packets as `ChunkCount` says, of at most Max bytes, concatenating to the data, with the statuses of one message |
| `Chunks.ChunkCountIsCeiling` | protocol.go:268-295 | that many packets hold the data and one fewer would not: the count is ceil(n/Max) |
| `Chunks.NeverFirstAndLast` | protocol.go:278-293 | no chunk of a message over Max is first and last: the branches that give C1 and S5 are never taken |
| `Chunks.PushedForShape` | protocol.go:238-339 | a message that fits is pushed as its chunks, one that does not as packets no frame can carry |
| `Chunks.SendSide.SendPacket` | protocol.go:238-339 | for a packet of any status and size, with or without data: the queue grows by exactly the packets of the message whose push did not time out, the counters count all; a close packet is pushed uncounted; a closed channel leaves everything alone |
| `Chunks.SendSide.SendChunks` | protocol.go:268-328 | the loop ends, builds the chunks, and pushes the whole packet once for each |
| `Chunks.SendSide.PacketToSendQueue` | protocol.go:229-236 | a push that times out leaves the queue alone |
| `Reading.VerdictIsStable` | protocol.go:718-872 | a frame delivered or refused on the bytes at hand is so with any more bytes behind it |
| `Reading.ReadLayout` | protocol.go:727-783 | the frame of a packet in order is delivered and nothing behind it is touched |
| `Reading.ReplyArrivesIff` | protocol.go:73-95 | a packet with data, expected by the peer, is framed and comes out as it was if and only if its path is not empty, within MaxPathLen and free of NUL |
| `Reading.ReadPartial` | protocol.go:727-770 | any proper prefix of such a frame makes the loop wait |
| `Reading.FragmentationDoesNotMatter` | protocol.go:718-872 | however the network cuts the stream, the loop ends in the same state |
| `Reading.StreamRoundTrip` | protocol.go:718-872 | the frames of any packets in order, channels mixed, come out as exactly those packets, each on its channel, no byte left |
| `Reading.StartRefusedIff` | protocol.go:733-743 | a frame is refused for its status if and only if that is the close status, and for its path if and only if none ends within the read buffer |
| `Reading.HeaderRefusedIff` | protocol.go:752-761 | a frame is refused with its channel id, whatever follows, if and only if the channel is unknown, or else the status may not follow |
| `Reading.LengthRefusedIff` | protocol.go:768-784 | a frame in order is refused with its length if and only if that is zero or over the limit; else it is waited for until that many bytes are in, and delivered then |
| `Reading.ReadSide.ReadLoop` | protocol.go:798-872 | the loop that updates statuses, queues and counters in place reaches the state of the specification, packets and bytes received per channel included |
| `Reading.ReadSide.NextFrame` | protocol.go:811-865 | reading status, path, channel, length and data one after the other, with a check after each, gives the verdict of the specification |
| `Merging.MergeChunks` | protocol.go:341-421 | after n of a message's chunks the buffer holds their data; after all, the message is delivered |
| `Merging.PrefixDelivers` | protocol.go:423-490 | from any prefix of the packets of a list of messages a channel loop delivers a prefix of the list, all of it messages that fit |
| `Merging.WholeDelivers` | protocol.go:423-490 | all of the packets give all of the messages and an empty buffer |
| `Merging.FitsIffSendable` | protocol.go:73-95 | every packet pushed for a list of messages can be framed if and only if every message fits |
| `Merging.PrefixAccepted` | protocol.go:757-776 | the statuses of such a prefix pass the peer's check |
| `Merging.RestOfPackets` | protocol.go:341-490 | after any part of the packets of a list of messages, the partly merged ones and those to come are exactly the packets of the messages not delivered yet |
| `Merging.DeliveryNeedsPackets` | protocol.go:341-490 | no loop delivers messages from fewer packets than carry them |
| `LinkProofs.StepKeepsInv` | protocol.go:229-872 | every step of a link keeps its invariant |
| `LinkProofs.RunKeepsInv` | protocol.go:229-872 | the invariant holds after every run, with channels closed at either end and ids used again at once: what was pushed is accounted for, in order, between outbox, queue, wire and receiver |
| `LinkProofs.NextIsAccepted` | protocol.go:757-776 | without losses the next packet on the wire passes the status check of its channel |
| `LinkProofs.ReadOutcome` | protocol.go:718-796 | one turn of the read loop waits, delivers the oldest packet on the wire, or refuses it because its channel is closed at the reader or has lost a packet |
| `LinkProofs.RefusedIff` | protocol.go:752-776 | a packet of a channel without losses is refused if and only if its channel is closed at the reader and its header has arrived |
| `EndToEnd.DeliversPrefix` | protocol.go:238-490 | for any channels, messages and interleaving, each channel without losses has delivered a prefix of what was sent on it |
| `EndToEnd.DrainedDeliversAll` | protocol.go:238-490 | a drained channel has delivered exactly what was sent if and only if no push timed out |
| `EndToEnd.ReaderClosesIff` | protocol.go:752-776 | in every reachable state in which nothing has been lost, the next turn closes the connection if and only if the oldest packet on the wire has come in up to its length and is for a channel closed at the reader |
| `EndToEnd.ReaderClosedIff` | protocol.go:752-776 | a run in which no push times out and no id is used again in the middle of a message has had the reader close the connection if and only if some turn of it met such a packet |
| `EndToEnd.ClosedChannelRefused` | protocol.go:752-756 | the run: any message that fits, sent before its channel is closed at the reader, makes the reader close the connection |
| `EndToEnd.CutIsRefused` | protocol.go:757-776 | when the reader uses an id again in the middle of a message, the next packet of it on the wire fails the status check |
| `EndToEnd.BufferIffUncompleted` | protocol.go:360-407 | the merge buffer is occupied if and only if the last status handled was an uncompleted one |
| `EndToEnd.BytesConserved` | protocol.go:141-158 | at every moment of every run, summed over all the channel objects that have had the id at either end, BytesSent and what is written but not counted exceed BytesReceived and what is read but not counted by exactly the frames on the wire |
| `EndToEnd.BytesAgree` | protocol.go:141-158 | on an id that is not used again this holds of the two counters themselves |
| `EndToEnd.BytesAgreeIff` | protocol.go:663-672 | on one that is, with nothing on its way or left to count, the counters of the two ends agree if and only if those of the older objects do |
| `EndToEnd.ReuseLosesAgreement` | protocol.go:663-672 | a run in which they do not: one message, all of it counted, and the id used again at the sender |
| `EndToEnd.ReceivedBeforeSent` | protocol.go:141-158 | a run in which the peer has counted bytes that the sender has not |
| `EndToEnd.SendPacketIsARun` | protocol.go:238-339 | one call of sendPacket is a run of single pushes and time-outs |
| `EndToEnd.CanDrain` | protocol.go:578-594 | a link without losses whose messages fit, with nothing on its way to a closed channel, can always be run until everything is delivered |
| `EndToEnd.DeliverableIffAllFit` | protocol.go:313 | everything sent can still arrive if and only if every message fits, data and path, and nothing is on its way to a channel closed at the reader |
| `EndToEnd.OversizeClosesConnection` | protocol.go:578-594 | a message whose data or path does not fit closes the connection before a byte of it is written |
| `SessionProofs.PlayKeeps` | client.go:310-430 | the invariant of both directions and of every user holds after every run, with channels closed at either end, sends that fail on a closed channel and ids used again at once by the client |
| `SessionProofs.RollBackIsExact` | client.go:342-357 | PopTail undoes the PushTail of the request that is being sent |
| `Pipelining.EachAnswerIsItsOwn` | protocol.go:443-487 | where no push times out, and with nothing outstanding on the id when the channel got it, the i-th answer is the reply to the i-th request and is handed to the i-th request |
| `Pipelining.OwnReplyIff` | protocol.go:246-256 | where request pushes time out but no response push does, and with nothing outstanding on the id when the channel got it, the i-th request is handed the reply to the i-th of those whose push did not, which is its own if and only if no push up to it timed out |
| `Pipelining.AnswersInOrder` | protocol.go:443-487 | on an id used again, where no push times out, the answers of the new channel are the replies to the requests asked on the id from the first one on that had none |
| `Pipelining.OldRepliesComeFirst` | protocol.go:643-661 | so the first of them are the replies still outstanding for the old channel, exactly as many as there were |
| `Pipelining.ReusedIdMisleads` | client.go:424-429 | a run without losses in which a request on a reused id is handed the reply to a request of the old channel |
| `Pipelining.ResultIsOwnReply` | client.go:365-374 | where no push times out, and with nothing outstanding on the id when the channel got it, what a waiting caller gets is the server's reply to its own request: one index names both, even when others have timed out |
| `Callers.AnswerReachesCaller` | client.go:365-374 | in every run, losses and reused ids included, an answered request that was pushed once has its answer on its caller's response channel if the caller has not left before, by giving up or by its send failing, and none if it has |
| `Callers.WaitsUntilAnswered` | client.go:365-374 | a request without an answer has none there, and its caller waits if and only if it has not left |
| `Callers.CallerGetsOwnReply` | client.go:310-374 | where no push times out, and with nothing outstanding on the id when the channel got it, the i-th caller that has not left is handed the server's reply to its own request |
| `Pipelining.NeverStuck` | protocol.go:451-457 | with nothing outstanding on the id when the channel got it, and no response push timed out, the client loop never finds the queue empty, whatever request pushes time out |
| `Pipelining.RollbackTakesOwnRequest` | client.go:342-357 | in every such reachable state, no response push timed out, the rollback takes off the request that failed to send and no other |
| `Losses.PlayPushes` | protocol.go:229-263 | after every run of a session the requests pushed so far are, in order, written or waiting to be, but for exactly those whose push timed out |
| `Losses.TakenAreSurvivors` | protocol.go:246-256 | so the k-th request the server has taken is the k-th whose push did not time out |
| `Progress.EveryRequestCanBeAnswered` | client.go:310-422 | from every reachable open session without losses, whose messages fit and with nothing outstanding on ids used again, and for any handler whose replies fit, some run answers every request asked on every channel, each in its own place, those not yet served with what the handler replies to it, and every caller that waits for a request it made once has its answer |
| `Closing.ClosedClient` | protocol.go:493-511 | a channel closed at the client sends no more requests, the one being sent fails, and its id can be used again if and only if the last push is over and the connection open |
| `Closing.HalfClosedClient` | protocol.go:498-503 | between the two steps of closing it is off the map and still sends |
| `Closing.ClosedServer` | protocol.go:217-219 | a channel closed at the server gets no reply to what is still served, and its packets are unknown to the read loop |
| `Closing.HandlerMayClose` | handle.go:177-180 | any request can be one whose handler closes the channel: it is served, gets no reply, and the channel is closed from then on |
| `Closing.ClosedCanReopen` | protocol.go:663-716 | a closed channel with nothing on its way can be opened again, its histories fresh |
| `Closing.BrokenConnection` | protocol.go:596-641 | the connection can break at any moment: what is queued is dropped, nothing more is begun, pushed or written, what is on its way can still arrive |
| `Closing.CutAnywhere` | protocol.go:727-784 | the bytes in flight can arrive in two parts, cut anywhere, to the same effect |
| `Pipelining.OneReplyEach` | protocol.go:359-417 | each completed request starts exactly one reply, never an empty one, as long as the channel is open at the server; after that none |
| `Pipelining.QueueIsInFlight` | client.go:341-357 | where no push times out, with nothing outstanding on the id when the channel got it and the connection open, the uncompleted queue equals, in order, the requests served and unanswered, on their way, and being sent |
| `Pipelining.ResponsesInFlight` | protocol.go:423-490 | where no push times out and the connection is open, the answers handed over are a prefix of the replies sent, and the packets partly merged, received, on the wire and queued are exactly those of the replies after it |
| `Pipelining.QueueInStepIffNothingLost` | client.go:341-357 | with nothing outstanding on the id when the channel got it and no response push timed out, queue length equals the requests in flight if and only if no request push timed out and no request was served on a closed channel; else it exceeds them by their number |
| `Pipelining.LostPushMisleads` | protocol.go:246-256 | a run in which a lost push makes the first request receive the second one's reply |
| `Pipelining.ClosingBreaksConnection` | client.go:424-429 | a run without losses in which a caller times out, its channel is closed, and the reply closes the connection |
| `Loops.ServerLoop.HandlePacket` | protocol.go:341-421 | one turn merges the packet, calls the handler and replies as specified; an open channel stays open if and only if the request's path is not /sys/delete_channel, and a complete request is replied to if and only if the channel is open then; status 8 ends the loop |
| `Loops.ClientChannel.Send` | client.go:341-359 | the request is queued, and taken off again if sending fails |
| `Loops.ClientChannel.HandlePacket` | protocol.go:423-490 | one turn pops or keeps the request and hands over a complete answer as specified |
| `Loops.ReplyToChunk` | protocol.go:359-417 | the reply after each packet of a request, its path and what it says, and whether the channel is open after it |
| `Loops.NoReplyWhileSilent` | protocol.go:372-404 | on a channel the request does not delete, no reply before completion if and only if the handler returned nothing on each incomplete part |
| `Loops.OneReplyIffSilent` | handle.go:167-209 | a request of any number of packets leaves an open channel open, and gets a reply, if and only if its path is not /sys/delete_channel; exactly one if and only if, besides, the handler is silent on its incomplete parts; the last reply is the handler's data, or the error text for a failure or for no data |
| `Loops.NewChannelIsAnswered` | handle.go:173-176 | the request for a new channel gets its reply and leaves its channel open |
| `Loops.NoReplyWhenClosed` | protocol.go:217-219 | no part of a request gets a reply on a closed channel or once it asks to delete it |
| `Loops.DeleteGetsNoReply` | handle.go:177-180 | the failing input: a request to delete its channel, whatever its data |
| `ChannelIds.ReserveKeepsIff` | protocol.go:643-661 | taking an id keeps the partition if and only if the 32-bit space is not used up |
| `ChannelIds.IdsArePartitioned` | protocol.go:643-716 | live, reserved and free ids are disjoint and together 0..MaxChannelId, channelCount is right and no two live channels share an id, at every interleaving in which no id is taken when all of 32 bits are in use |
| `ChannelIds.ChannelTable.MakeNewChannelId` | protocol.go:643-661 | the fields change as the specification says |
| `ChannelIds.ChannelTable.InsertChannel` | protocol.go:677-680 | the fields change as the specification says |
| `ChannelIds.ChannelTable.RemoveChannel` | protocol.go:708-716 | the fields change as the specification says |
| `ChannelIds.ClientIdsLiveAtServer` | client.go:161-190 | as long as no channel is deleted at the server, every id live or reserved at the client is live at the server, with closes, reuse and timed-out requests at the client |
| `ChannelIds.EverLiveAtServer` | protocol.go:752-756 | and so is every id that has ever been live at the client, so that no packet of a channel closed meanwhile meets an unknown id |
| `Joint.TablesMatch` | client.go:161-190 | in every run of the two tables and the session together, without deletions at the server, the server knows every channel of the session and the client those whose id is live in its table |
| `Joint.AllocatedCanOpen` | protocol.go:643-716 | whatever id the client's table gives can be opened in the session: at once if it is new, else if and only if the last send on the closed channel has ended and the client has not closed the connection |
| `Joint.FirstChannel` | client.go:161-190 | the run that makes the first channel, from the server's id to the channel at both ends |
| `Joint.ServerNeverRefuses` | protocol.go:752-776 | in every such run the server's read loop closes the connection only after a request push has timed out |
| `ChannelIds.DeletingLosesInclusion` | handle.go:177-180 | one deletion at the server is enough to lose that |
| `Deletions.StaysIncludedIff` | handle.go:177-180 | in a run in which the server has not used up its ids, every id in use at the client has been live at the server so far and its system channel not deleted, they stay so in every continuation without more deletions if and only if no deleted id and no id the server has not created is within reach of the callers under way, as the sizes of the two tables tell |
| `ChannelIds.GrantedIdIsUsedIff` | client.go:179-185 | whichever free id is picked, a caller gets the id it was granted if and only if that is the only free one or, with none free, the next one |
| `ChannelIds.GrantedInOrderIff` | client.go:179-185 | in every run without closes a caller granted `id` gets it if and only if exactly `id` - 1 callers have reserved before it |
| `ChannelIds.SerialisedGetsGranted` | client.go:161-190 | when each creation ends before the next begins and none times out or is closed, every caller gets the id granted to it |
| `ChannelIds.ClosingLosesAgreement` | client.go:179-185 | one close at the client is enough to lose that: a caller granted 2 gets 1 |
| `ChannelIds.OvertakingLosesAgreement` | client.go:179-185 | so is one caller overtaking another, with nothing closed |
| `ChannelIds.FreedCanBeGranted` | client.go:179-185 | with freed ids a caller can still get the id granted to it |
| `Slices.SplicedList` | client.go:259-268 | splicing in place takes out exactly the element and keeps the others in order |
| `Slices.SweepCloses` | client.go:143-147 | the range loop closes every second connection and the last; the others stay listed in order |
| `Slices.SweepClosesAllIff` | client.go:143-147 | it closes all if and only if there are at most two |
| `Lifecycle.Channel.Close` | protocol.go:493-511 | idempotent; takes the channel off its connection's map |
| `Lifecycle.Connection.CloseChannels` | protocol.go:625-627 | closes every channel, empties the map and frees the ids |
| `Lifecycle.Connection.Close` | protocol.go:596-641 | the recursion ends, is idempotent, takes the connection off the list with the others in order, closes all its channels |
| `Lifecycle.Client.Append` | client.go:249-251 | the list grows by the connection, in place or in a fresh copy |
| `Lifecycle.Client.Unlink` | client.go:257-271 | the critical section splices the connection out and counts it down if it was listed |
| `Lifecycle.Client.RemoveConnection` | client.go:256-276 | a listed open connection is unlisted and closed; another one is left alone |
| `Lifecycle.Client.Close` | client.go:143-147 | ends in the state of the sweep; every connection is closed if and only if there were at most two |
| `ConnectionCounts.IndexInRangeIff` | lbclient.go:117-123 | in every run the list is as long as connCount plus the uncounted connections, and the rotating index is in range if and only if the list is not empty |
| `ConnectionCounts.RotatesRound` | lbclient.go:117-123 | while the count stays, calls in a row come to each place of the list in turn, from the one after the last |
| `ConnectionCounts.CanSettle` | client.go:211-252 | from every reachable state the callers under way can end, and then connCount is the length of the list |
| `ConnectionCounts.EmptiedAfterCheck` | lbclient.go:104-123 | the list can become empty between the check and the lock |
| `ConnectionCounts.CountBelowZero` | client.go:249-271 | connCount can be -1 |
| `ConnectionCounts.ListWithinLimit` | client.go:211-252 | the list exceeds MaxConnections by less than the number of concurrent callers |
| `ConnectionCounts.LimitIsOverrun` | client.go:211-252 | and that bound is reached, for any limit and number of callers |
| `Weights.Expand` | lbclient.go:583-600 | the loop ends, its list is the expansion the following rows are about, and the weights are brought to zero |
| `Weights.OneTurn` | lbclient.go:586-594 | one turn of the loop appends the round the next row is about, takes one off each weight it lists, and tells whether any is left |
| `Weights.RoundLists` | lbclient.go:586-594 | round r lists exactly the entries with weight above r, in order |
| `Weights.InTurns` | lbclient.go:583-600 | an entry is listed for the (k+1)-th time after every entry that is listed for the k-th, and within a turn in ascending order |
| `Weights.NoneIsAhead` | lbclient.go:583-600 | in no beginning of the list is an entry more than one ahead of another whose weight is not used up |
| `Weights.ListedByWeight` | lbclient.go:583-600 | each entry is listed exactly as often as its weight, one that is not positive never |
| `Weights.ExpansionLength` | lbclient.go:583-600 | the list is as long as the weights together |
| `Balancing.Picked` | lbclient.go:265-271 | the counter modulo the list; a panic if and only if the counter is negative and not a multiple of the length |
| `Balancing.Balancer.SelectBackendRoundrobin` | lbclient.go:265-271 | that is chosen, and the counter goes on by one, wrapping at 64 bits |
| `Balancing.ProportionalShare` | lbclient.go:265-271 | over any m times the total weight calls in a row entry i is chosen exactly m times its weight |
| `Balancing.Balancer.SelectBackendMinPending` | lbclient.go:279-299 | with loads that change during the scan, as each is read: from a positive load on, the first least loaded backend on the ring, or the start if at the second look it is below all of them; else the start |
| `Balancing.EarlyExitIff` | lbclient.go:283-297 | the early exit returns the first least loaded backend if and only if no load is lower |
| `Balancing.Balancer.GetTaskClient` | lbclient.go:372-411 | with loads as each is read, the scan starts at the index plus one, or at the start beyond the end, and chooses the first eligible client of least load on the ring from there; fails if and only if none is eligible; panics if and only if the list is empty or the next index is negative |
| `Balancing.IdleRotation` | lbclient.go:372-411 | with all n backends eligible and idle any m times n calls in a row choose each exactly m times |
| `Balancing.FirstLeastUnique` | lbclient.go:279-299 | there is only one such backend |
| `Pending.PendingCountsInFlight` | lbclient.go:468-488 | pendingRequests is twice the DoRequest2 calls inside DoRequest plus those just before and after plus the plain DoRequest calls; no load is negative; zero means idle and healthy |
| `Pending.CanGoIdle` | lbclient.go:468-488 | from every reachable state the calls under way can end, and then nothing is pending |
| `Pending.LeastPendingChoice` | lbclient.go:92-94 | on any loads that can be read, pending requests and fail count each at its own moment, the least-pending scan is exact, early exit included, unless the start falls below all of them during the scan |
| `Pending.EvaluatedClient.DoRequest2` | lbclient.go:468-488 | one call, whatever its outcome, leaves pendingRequests as it was, sets or clears the pause, and counts or halves the failures |
| `Pending.RequestIsARun` | lbclient.go:468-488 | one call of DoRequest2 is a run of those single steps |
| `Pending.FailureLost` | lbclient.go:481-485 | a failure between reading and halving the fail count is lost |
| `Pending.EvaluatedClient.DoRequest` | lbclient.go:132-151 | no channel pauses the backend and records the error; a channel ends the pause; the counter is as before either way |
| `Pending.EvaluatedClient.Judge` | lbclient.go:490-513 | errors in a row are counted, the sixth pauses, a response resets |
| `Pending.PausedIff` | lbclient.go:490-513 | after any requests one after the other the backend is paused if and only if the last found no channel, or failed and was at least the sixth in a row without a response |
| `Pending.PassedOverIff` | lbclient.go:386 | a backend is passed over if and only if it is paused so and its last request with a channel is at most five seconds ago |
| `Pending.ErrorIsKept` | lbclient.go:504-510 | the recorded error is always that of the last request without a channel: it is never cleared |
| `Windows.RingRefinesLog` | statis.go:156-194 | after any ticks and additions, with up to 299 ticks between an addition's reading the slot and its updating it, the slot k behind the current one holds what was added in the k-th last tick, for the last 300, and the slot ahead is empty |
| `Windows.ReportedTotal` | statis.go:240-258 | the report is the true 300-tick total less the skipped slot |
| `Windows.ReportExactIff` | statis.go:240-258 | the report is right if and only if the current slot is 299 or nothing was added in the one missed tick |
| `Windows.ReportMisses` | statis.go:254-257 | at every other slot some history is misreported |
| `Windows.CellHolds` | statis.go:96-122 | a cell holds the counts and durations of its samples, and each of the first seven ranges the number and total duration of exactly the samples whose time range is its own, the eighth of all others |
| `Windows.HistogramConserves` | statis.go:96-122 | counts add up to the samples and durations to the total duration, for any range function |
| `Windows.PercentagesAddUp` | statis.go:271-316 | the eight floored percentages add up to 93..100, or 0 when empty |
| `Windows.SevenPointsLost` | statis.go:300-307 | 93 is reached |
| `Statistics.TimeCount.Record` | statis.go:96-122 | exactly the entry of the sample's range grows, by one and by its duration |
| `Statistics.Measure.TickTack` | statis.go:156-181 | the ring and totals are those of the events with one more tick |
| `Statistics.Measure.Add` | statis.go:183-194 | the ring and totals are those of the events with one more sample |
| `Statistics.Measure.AddAt` | statis.go:188-193 | so are they when ticks have passed since the addition read its slot |
| `Statistics.Measure.Report` | statis.go:240-258 | the loop computes the reported total of every field |
| `PathCounts.Server.AddCount` | server.go:96-103 | a registered path and the total grow alike; an unregistered path changes nothing |
| `PathCounts.Server.RegisterHandler` | server.go:238-245 | the path gets a new counter |
| `PathCounts.CountersTell` | server.go:96-103 | a path has a counter if and only if it was registered, which holds what was added since the last time; the total is all that was added to registered paths |
| `PathCounts.TotalBalances` | server.go:96-103 | in every run the total is the sum of the path counters plus what re-registration discarded |
| `PathCounts.TotalAgreesIff` | server.go:238-245 | with counts that are not negative they agree if and only if every registration was of a path that was new or had counted nothing |
| `PathCounts.RegisteredAgain` | server.go:238-245 | the failing input: where total and paths agree, registering a path again on which something was counted makes them disagree |
| `PathCounts.ShownPlusPending` | server.go:96-103 | at every moment, any number of AddCount calls half done, each counter and what is pending on it are what the calls started so far make it |
| `PathCounts.TotalBalancesThroughout` | statis.go:340-347 | at every moment the total is the sum of the paths plus what was discarded, counting in what is pending |
| `Counting.ChannelTells` | protocol.go:149-158 | each of the six numbers of a channel counts its own kind of thing: pushes of packets and chunks, whole packets, packets read, whole ones merged, bytes written, bytes read |
| `Counting.ClientTotals` | protocol.go:149-158 | at the client, after any tallies, each connection's counter is the sum of its channels' and the client's the sum of its connections' |
| `Counting.ServerTotalsIff` | protocol.go:869 | at the server a connection's counter is the sum of its channels' if and only if no packet has been read on it |
| `Counting.ReadsAreReceived` | protocol.go:869 | PacketReceived, summed over the channels, is the number of packets read |
| `Counting.ShownPlusPending` | statis.go:340-347 | with tallies made one atomic addition at a time, in any order, each counter and what is pending on it are what the tallies started so far make it |
| `Counting.ClientTotalsThroughout` | protocol.go:258-263 | at every moment the client's sums hold, counting in what is pending |
| `Counting.ServerTotalsThroughoutIff` | protocol.go:869 | at every moment a server connection's counter, counting in what is pending, is the sum of its channels' if and only if no packet has been read on it |
| `Counting.ReadWhenQuiet` | protocol.go:149-158 | with nothing pending every counter reads what the tallies make it |

## Left out

- Loops.ServerLoop.HandlePacket: URL parsing (parsePath) is an unseen library; it is any function on paths.
- Statistics.Measure.AddAt: updates the slot it has read in one step; ticks between its single updates, and an addition held up for 300 ticks or more, are not modelled.
- Lifecycle.Connection.Close: the socket, the close notifications, the emptying of the write queue and the stored error are not modelled; a server connection, which is removed by address, is not either.
- Sessions are of user channels; requests on channel 0, where every newChannel call has its own lock and wrapper, are not matched to callers.
- Reuse of an id deleted at the server is part of `Sessions` only once the client has closed its channel and nothing is outstanding; the client uses an id again at once. What a send still going on pushes on an id that is in use again is not, nor an id that is taken again between the two steps of closing it, off the map and marked. With a new channel object at the reading end the history of an id starts afresh; what its older objects have counted is kept.
- The runs of `Joint` have no deletions at the server, and open a channel at both ends when the client inserts its id, which the server has created by then.
- Replies whose path is empty or holds a NUL, as parsePath can make of "?x" or "/a%00b": `Sessions` serves a request only with a reply whose path ValidatePath would let through; what becomes of the others is in `ReplyArrivesIff` only.
- A turn of the server's channel loop, which takes a packet, calls the handler, may close the channel and begins the reply, is one step of `Sessions`; the pushes of the reply are steps of their own.
- A channel's closing and its last push are separate steps; what a send already past the check at protocol.go:217 pushes is pushed.
- The pool of notification channels: handing over an answer and the caller's giving up exclude each other in `Sessions`.
- The write queue and the receive queues are unbounded; a full write queue shows as a push that may time out at any moment, a full receive queue as bytes not read yet.
- Packets are values: that a merged packet is the first packet object, changed in place, is not modelled.
- 64-bit overflow of counters other than the round robin index.
- TimeCount without a range function, which Measure never has.
- The all-time averages of String divide durations of the window by all-time counts (statis.go:309-316); no law is claimed for them.
- Parsing of the server list, hash, random and JSON-expression selection, RemoveBackend and the health-check functions; requests that overlap on the plain fields paused, err and requestErrorCount of one backend, or between reading and counting up the round robin index.
- Deadlines, TLS, keep-alive, JSON and base64 encoding, handler registries, contexts, logging, `httpadapter/`, `iq/`, `example/`.
