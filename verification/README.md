# aiomoqt: a verified model of its send path and session state machines

aiomoqt is a Media over QUIC Transport library. A publisher numbers objects into
groups and hands each to one send lane per peer; a lane writes a group on one
stream, queues what its peer cannot take, sheds whole groups past a byte bound,
and keeps one promise: a stream that ends in FIN is whole, and one that is not
whole is reset. This project models that lane and what surrounds it, and proves
what the library promises of it:

- **The send lane** (`LaneSpec`, `LaneQueue`, `LaneProofs`, `LaneRuns`,
  `LaneStreams`, `LaneBacklog`, `LaneShed`, `LaneCalm`,
  `LaneTurns`, `LaneSent`, `LaneCases`, `LaneObjects`).
  The state of `SendLane` and of the `SubgroupDelivery` behind it, with `write()`
  split at its awaits (opening a stream, its header, an object). The transport is a
  ghost list of streams, each with what it carried and how it ended, and an oracle
  for "takes it now", "must wait", "stopped" and "raised", and for the bytes a stream
  still holds. Every event of the source, the track, the peer, the transport and the
  writer task may come between any two others.
- **The fan-out** (`Fanout`, `Encoding`). One published sequence to many lanes, and
  the encodings its peers share.
- **The object history** (`History`, `HistoryFetch`, `HistoryObjects`). The
  byte-bounded cache with batched eviction that answers FETCH, against the list of
  what was published to each group since it was last discarded.
- **Requests** (`RequestIds`, `Credit`, `ReplyQueue`, `Prefixes`, `Ranges`,
  `ReceiveBudget`). The tracker of a peer's request ids, MAX_REQUEST_ID credit as a
  two-party protocol with messages in flight, replies credited by their place,
  admitted prefixes, FETCH ranges, receive budgets.
- **Control streams** (`ControlStream`). Reassembly from chunks, the draft-18
  control/data verdict and the hold before the draft is known.
- **Generated tracks** (`SubgroupSender`), **the agent's lossy writer**
  (`LossyWriter`) and **the catalog** (`Catalogs`, `CatalogTrack`).

Code that changes state in place is a class whose methods are proved to make of the
fields what a function makes of their value (`View()`); runs are sequences of those
functions, and the results are lemmas about every run.

Six places where the code does less than might be expected of it are stated as
results, each with the exact condition and a case where it does not hold:

- A FETCH whose End is a whole group below the eviction marks does not account for
  all of that group when it was dropped and later begun again
  (`FetchCovers`, `ReopenedGroupUncovered`).
- The tracker of request ids refuses an id that never came if and only if the set of
  ids seen, once full, was cut back over it (`LosslessIff`, `NothingLostIff`). The set
  is full with 4096 ids accepted above one that is missing (`SeenIsAbove`), and that
  many can be enough (`OneTooMany`).
- A subgroup whose number is at or past the group size still makes its first object
  in each group (`MadeBelowSize`).
- With the `error` policy, a refused write that began a group leaves the group
  without its first object, and the next write goes out as no group's first
  (`RefusalKeepsIff`, `RefusedStartBreaks`); so does a cancelled wait for room that
  held a group's first object, unless `end_group()` was called meanwhile
  (`CancelKeepsIff`, `CancelledStartBreaks`).
- A lane's note of its newest lost group is overwritten when the write of an older
  group fails, and exactly then a lost group can be rejoined, although the
  documentation of `resume()` says it waits for the next one (`RejoinedIffForgotten`,
  `ForgottenShedReachable`); the streams that end in FIN are whole even so.
- A catalog update that renames a track can give it the name of another
  (`ApplyKeepsKeysIff`, `RenameShares`).

## Model

| member | source | states |
|---|---|---|
| LaneRuns.FinMeansWhole | aiomoqt/delivery.py:458-622 | in every run of a lane, a stream that ended in FIN carries, in order, every object the filter admitted among those offered from its first object to the place it ended at, all of one group; and it ended there because the source asked for an end at that very place (END_GROUP, END_TRACK or CLOSE) or because the next object offered is of a later group; a stream for no object is END_OF_TRACK's own |
| LaneStreams.OthersAreReset | aiomoqt/delivery.py:684-699 | in every run of a lane, a stream that did not end in FIN was reset, by the lane or by its peer, unless it is the one the writer still holds |
| LaneStreams.OpenIsWholeOrCut | aiomoqt/delivery.py:1028-1052 | the one it holds carries everything admitted from its first object up to the object whose turn it is; or its group is below the floor and a CUT, which resets it, is at the queue's head |
| LaneStreams.StepClosed | aiomoqt/delivery.py:784-797 | no event, reset or FIN, stop, shed, resume or a stream opened too late, leaves behind a stream that neither ended nor is held |
| LaneShed.OfferLosesNothing | aiomoqt/delivery.py:904-944 | in every reachable running lane, a live object for which the bytes queued, its own and the backlog read leave room, or a replayed one, is handed to the writer or queued behind the rest, with nothing dropped and no floor raised but for the error of that very write; and it is handed over just when nothing waits before it, the lane may send, and its stream carries an object already |
| LaneShed.OfferShedsLeast | aiomoqt/delivery.py:1028-1052 | with no room, what stays queued is exactly the offered group's objects, and the floor is that group, if those and the backlog of the streams from that group on are within the bound; only otherwise does the group go too, with the floor past it; controls stay, a CUT is at hand, and streams from the new floor on are untouched |
| LaneShed.ReadsEveryEighth | aiomoqt/delivery.py:914-919 | in a row of live objects of one group that the lane takes, the backlog is read with the first and with every eighth from there |
| LaneCalm.CalmLaneDelivers | aiomoqt/delivery.py:524-622 | from any state at rest that a lane can come to, while there is room, Forward State is 1 and every write goes through, all it is offered is handed to the writer or queued, in order; no stream is reset; every object that had its turn and that the filter admitted then is on a stream; and once an end is asked for and all is done, no stream is open, so that they all ended in FIN |
| LaneTurns.GroupGivenUp | aiomoqt/delivery.py:1218-1233 | at Forward State 0, or past its time, an object takes its group with it: its open stream is reset, or one of an earlier group ended in FIN, nothing up to the group is queued or taken again, and nothing of a later group or of the controls goes |
| LaneTurns.ControlTurn | aiomoqt/delivery.py:1151-1175 | what each control does at its turn: END_GROUP and CLOSE end the open stream in FIN; END_TRACK too, or it is a stream of its own with none open, unless the filter or Forward State 0 forbids it; RESET_GROUP resets the open stream and gives up just the groups it names; nothing else is taken from the queue |
| LaneTurns.CutTurn | aiomoqt/delivery.py:784-797 | a CUT resets exactly the streams below the floor that are open or have bytes left, forgets those below it, and touches nothing else |
| LaneTurns.ShedFreesParked | aiomoqt/delivery.py:1040-1044 | a shed frees at once a write parked in opening a stream or in its header: every stream below the floor is reset or was found drained; with none parked the streams are left to the CUT |
| LaneTurns.ResumeIs | aiomoqt/delivery.py:975-999 | resume() drops just what is queued up to its group and the resets aimed there, and resets the open stream; later groups are taken as before, and its own if and only if that is asked for, the lane has not lost it and nothing later was given up |
| LaneTurns.StopNoted | aiomoqt/delivery.py:615-622 | the peer stopping the stream of a write loses that stream alone and halts its group |
| LaneTurns.HaltedTurn | aiomoqt/delivery.py:524-537 | an object of a halted group, but one that begins a group, goes on no stream |
| LaneTurns.StopStays | aiomoqt/delivery.py:615-622 | and the group stays halted until another is |
| LaneBacklog.BacklogIsHeld | aiomoqt/delivery.py:765-782 | what a reachable lane reads as its backlog is, stream by stream, what the transport holds of the open stream and of each one watched from the floor on, each counted once |
| LaneBacklog.FinsAreHeld | aiomoqt/delivery.py:458-474 | of the streams that ended in FIN only those are not watched that a reading found drained |
| LaneRuns.FinMeansFiltered | aiomoqt/delivery.py:524-537 | under one filter throughout, those objects are exactly the ones the filter passes of what was offered from its first object to such a place |
| LaneRuns.LaneBounded | aiomoqt/delivery.py:904-944 | in every run the bytes queued and those read from the transport stay within max_bytes; the counts are the sums over the queue; nothing queued is below the floor |
| LaneRuns.CutIsAtHead | aiomoqt/delivery.py:1044-1047 | while the writer task lives, the cut flag is set exactly when the one CUT item is at the queue's head |
| LaneRuns.HandedInOfferOrder | aiomoqt/delivery.py:920-944 | writing through never reorders: the objects handed to the writer, then the queue, are a subsequence of those offered |
| LaneRuns.StepKeeps | aiomoqt/delivery.py:800-826 | every event that can happen keeps the lane's invariant |
| LaneRuns.RunKeeps | aiomoqt/delivery.py:1189-1253 | so does every interleaving of events |
| LaneCases.RejoinedIffForgotten | aiomoqt/delivery.py:975-999 | over any run after a group was lost with nothing newer lost since, resume() with rejoin goes back into it if and only if the write of an older group has failed since it was last lost |
| LaneCases.StepRemembers | aiomoqt/delivery.py:1131-1149 | the last group lost is always below the floor, and no event but the failed write of an older group replaces it by an older one |
| LaneCases.OlderFailureForgetsShed | aiomoqt/delivery.py:1131-1149 | in a lane that has lost a group, the failed write of an older one is enough for resume() to rejoin it |
| LaneCases.ForgottenShedReachable | aiomoqt/delivery.py:1028-1040 | a run of three events reaches a lane where that can happen |
| LaneProofs.ShedKeeps | aiomoqt/delivery.py:1028-1052 | a shed leaves the lane within its bound, and no open stream or write in flight without what follows it, unless a CUT is queued to reset it |
| LaneProofs.OfferKeeps | aiomoqt/delivery.py:904-944 | offering an object, inline or queued, with a shed or without, keeps the invariant and the bound |
| LaneProofs.WriteThroughKeeps | aiomoqt/delivery.py:714-745 | so does an inline write, whatever the transport makes of it |
| LaneProofs.ResumeKeeps | aiomoqt/delivery.py:975-999 | resuming may lower the floor, and still queues nothing below it |
| LaneProofs.TakeKeeps | aiomoqt/delivery.py:1205-1240 | one turn of the writer task keeps the invariant |
| LaneProofs.WakeKeeps | aiomoqt/delivery.py:580-622 | a write woken at any of its awaits, with the stream reset meanwhile or not, keeps the invariant |
| LaneProofs.FailedKeeps | aiomoqt/delivery.py:1131-1149 | a failed write resets the stream that was open, leaves none open and nothing of its group or one before it queued, and raises the floor past it |
| LaneProofs.BeginWriteKeeps | aiomoqt/delivery.py:524-575 | a write up to its first await ends the open stream only when that stream is whole |
| LaneProofs.PeerStopsKeeps | aiomoqt/delivery.py:615-622 | the peer stopping any stream at any time keeps the invariant |
| LaneQueue.TrimKeeps | aiomoqt/delivery.py:1010-1019 | trimming below a floor drops a prefix of the queued objects and keeps the counts |
| LaneObjects.SendLane.Offer | aiomoqt/delivery.py:904-944 | the fields after offer() are what the lane's specification makes of them, and the invariant holds |
| LaneObjects.SendLane.Turn | aiomoqt/delivery.py:1205-1240 | the same for one turn of the writer task |
| LaneObjects.SendLane.Wake | aiomoqt/delivery.py:1236-1250 | the same for an awaited call coming back, done, stopped, failed or cancelled |
| LaneObjects.SendLane.Shed | aiomoqt/delivery.py:1028-1052 | the same for a shed |
| LaneObjects.SendLane.Resume | aiomoqt/delivery.py:975-999 | the same for resume() |
| LaneObjects.SendLane.Stop | aiomoqt/delivery.py:1072-1085 | the same for stop(), which tells whether an object was dropped or its send abandoned |
| LaneObjects.SendLane.Keep | aiomoqt/delivery.py:1010-1019 | dropping items one by one, with their counts, is trimming the queue |
| LaneObjects.SendLane.Control | aiomoqt/delivery.py:1151-1175 | each control item does to the streams and the floor what the specification says |
| LaneObjects.SendLane.Failed | aiomoqt/delivery.py:1131-1149 | a failed send resets the open stream and raises the floor past its group |
| LaneObjects.SubgroupDelivery.EndGroup | aiomoqt/delivery.py:458-474 | the open stream ends in FIN and is watched until the transport has drained it |
| LaneObjects.SubgroupDelivery.SendNowait | aiomoqt/delivery.py:714-745 | an object is written inline only on an open stream that already carries one; excluded, it is skipped; nothing is written when it has to wait |
| LaneObjects.SubgroupDelivery.Begin | aiomoqt/delivery.py:524-575 | write() up to its first await: rotates, follows or passes over |
| LaneObjects.SubgroupDelivery.Continue | aiomoqt/delivery.py:576-614 | write() from an await to the next, abandoned when a reset came between |
| LaneObjects.SubgroupDelivery.TxQueued | aiomoqt/delivery.py:765-782 | the bytes held from a floor on, drained streams forgotten |
| LaneObjects.SubgroupDelivery.ResetBelow | aiomoqt/delivery.py:784-797 | the streams of groups below a floor are reset, drained ones only forgotten |
| Fanout.PeersAgree | aiomoqt/delivery.py:1353-1382 | however the peers of a fan-out join, stall, shed, gate and resume, any two agree on the objects both were handed: same payload under the same Location, same order |
| Fanout.StreamsAgree | aiomoqt/delivery.py:1353-1382 | and so do any two streams of theirs, open, finished or reset, on the objects both carry |
| LaneSent.StreamCarriesHanded | aiomoqt/delivery.py:524-622 | whatever became of a stream, it carries objects the writer was handed, in that order |
| Fanout.FanStepKeeps | aiomoqt/delivery.py:1256-1265 | every lane has been offered an unbroken part of the one published sequence, to its end while it takes objects |
| Fanout.FanoutDelivery.Write | aiomoqt/delivery.py:1353-1382 | the object is offered to every lane, and each is left as offer() leaves it |
| Fanout.FanoutDelivery.Add | aiomoqt/delivery.py:1288-1306 | a lane attached now starts with the next object, and when joining with the next group |
| Encoding.SharingIsTransparent | aiomoqt/delivery.py:373-399 | whatever the peers share, and however often an inline write is refused, each stream carries the bytes its peer would have encoded alone, and its header is where it would be alone |
| Encoding.StepOk | aiomoqt/delivery.py:661-677 | the lists hold at most four encodings, each the object's in the state it is kept under |
| Encoding.IdsComeBack | aiomoqt/messages/data.py:236-250 | whatever a stream carries, a receiver that reads back each Object ID delta has the ids written |
| Encoding.SharedOnce | aiomoqt/delivery.py:388-399 | an encoding made is found from then on by whoever shares its state and extensions, each is kept once, and only a fifth is not kept |
| Encoding.StepWrites | aiomoqt/delivery.py:714-745 | a write taken adds its object to its own peer's stream, a refused one nothing, and its encoding goes to the object's list |
| Encoding.ObjectBytes | aiomoqt/delivery.py:661-677 | the bytes are the peer's own encoding and the header advances, from the list or not |
| Encoding.SendNowait | aiomoqt/delivery.py:714-745 | a refusal leaves the header as it was |
| Encoding.EncodingList.Find | aiomoqt/delivery.py:388-394 | the first encoding kept under that state and those extensions |
| Encoding.SubgroupHeader.NextObjectBytes | aiomoqt/messages/data.py:211-241 | the bytes depend on the encoding state and the object only; the header advances |
| Encoding.SubgroupHeader.Advance | aiomoqt/messages/data.py:243-250 | the header advances as if the object had been encoded on it |
| History.EvictDropsPrefix | aiomoqt/delivery.py:248-271 | batched eviction drops, of the publication order, the shortest prefix that brings the bytes to the cap, and the mark becomes the largest Location dropped |
| History.AddBounded | aiomoqt/delivery.py:206-246 | after an add the bytes exceed the bound by at most the slack or the added charge; the mark never goes back |
| History.AddEvictsLeast | aiomoqt/delivery.py:206-246 | an add puts the record at the end of its group and evicts nothing while the bytes stay within the bound and the slack, or, with the default slack, were within the bound before; else it evicts the shortest prefix, of the order things go, that leaves at most the bound less the slack, or by default less the charge added where that is more |
| History.AddKeeps | aiomoqt/delivery.py:206-246 | after an add every group's records held are the last part of what was published to it, and the rest is at or below the mark |
| History.DiscardKeeps | aiomoqt/delivery.py:310-322 | a discarded group reads as never published, and no other loses its mark |
| History.EvictKeeps | aiomoqt/delivery.py:248-288 | eviction keeps that agreement |
| HistoryFetch.ResponseAgrees | aiomoqt/delivery.py:331-370 | after any run of adds, evictions and discards, each object of a FETCH response is the first published at its Location since its group was last discarded, and everything published since in a range ending at a proper Object ID is returned or at or below the marker |
| HistoryFetch.FetchIsFaithful | aiomoqt/delivery.py:290-301 | what a FETCH returns at a Location is the first object published there since its group was last discarded, if it ever was |
| HistoryFetch.FetchCovers | aiomoqt/delivery.py:331-354 | everything published in the range is returned or at or below the marker, if and only if the range does not end with a whole group that was dropped past what is held of it again |
| HistoryFetch.ReopenedGroupUncovered | aiomoqt/delivery.py:349-353 | a run of three adds where that exception happens |
| HistoryFetch.ResponseOrder | aiomoqt/delivery.py:350-370 | a response goes up the range, or down it by groups with each group's objects going up, and has one marker, at its low end, exactly when part of the range is dropped |
| HistoryFetch.MarkerIsLow | aiomoqt/delivery.py:355-370 | the marker is before every object returned, and those are within the range |
| HistoryObjects.ObjectHistory.Add | aiomoqt/delivery.py:206-246 | the objects in place do what the specification of add() says, slack rules included |
| HistoryObjects.ObjectHistory.Evict | aiomoqt/delivery.py:248-271 | the same for eviction; it terminates, and the byte count stays the sum of what is held |
| HistoryObjects.ObjectHistory.DropOldest | aiomoqt/delivery.py:273-288 | the oldest group goes, and the pointers kept at hand still agree with the dict |
| HistoryObjects.ObjectHistory.Discard | aiomoqt/delivery.py:310-322 | the same for discard() |
| HistoryObjects.ObjectHistory.Fetch | aiomoqt/delivery.py:331-370 | the response is the objects to be returned, each once, groups ascending or descending and objects ascending, with the marker at its low end |
| HistoryObjects.ObjectHistory.EvictedThrough | aiomoqt/delivery.py:195-204 | the mark is that of the groups dropped whole or of the oldest's evicted records, the larger |
| HistoryObjects.ObjectHistory.LastObject | aiomoqt/delivery.py:324-329 | the largest Object ID held in a group |
| HistoryObjects.ObjectHistory.HeldIn | aiomoqt/delivery.py:290-301 | the first record held of every Location in a range |
| HistoryObjects.HeldGroup.EvictHead | aiomoqt/delivery.py:260-270 | the first record goes, its Object ID into the mark, and slots are compacted in time |
| HistoryObjects.HeldGroup.Compact | aiomoqt/delivery.py:134-141 | dropping the evicted slots changes no record and no priority |
| RequestIds.NeverTwice | aiomoqt/protocol.py:1337-1354 | in whatever order ids arrive, none is accepted twice; those kept are at most 4096 and none is below the mark |
| RequestIds.RefusedIffSeen | aiomoqt/protocol.py:1606-1617 | until the set first overflows, ids are refused exactly for having been seen |
| RequestIds.LosslessIff | aiomoqt/protocol.py:1345-1354 | noting one more id leaves exactly the ids accepted refused if and only if there is room, or every id the mark is moved over has come |
| RequestIds.NothingLostIff | aiomoqt/protocol.py:1337-1354 | over a whole session, an id that never came is refused if and only if at some point the set was cut back over one |
| RequestIds.SeenIsAbove | aiomoqt/protocol.py:1337-1354 | the set is what was accepted above the lowest id missing, so it is full exactly at 4096 of those |
| RequestIds.OverflowGivesUp | aiomoqt/protocol.py:1348-1350 | after an overflow, an id with at most a quarter of the set below it is refused though it never came |
| RequestIds.OneTooMany | aiomoqt/protocol.py:1348-1350 | a run where no missing id ever has more than 4096 accepted above it and one is refused all the same |
| Credit.NeverCloses | aiomoqt/protocol.py:1600-1623 | with requests reordered and limits in order, as long as no arrival makes the receiver give up an id still to come, no id is of the wrong parity, a duplicate or past the limit, and no limit fails to increase |
| Credit.LossCloses | aiomoqt/protocol.py:1337-1354 | an arrival that does make it give one up gives up an id in flight, and that one closes the session when it comes |
| Credit.RoomIsLossless | aiomoqt/protocol.py:1345-1354 | none does while every id still to come has fewer than 4096 accepted above it |
| Credit.QuietHasCredit | aiomoqt/protocol.py:6542-6574 | with everything delivered and no recheck due, the requester may allocate an id |
| Credit.RecheckSettles | aiomoqt/protocol.py:6570-6574 | a recheck that finds fewer than the cap held is not due again, and raises the limit if half the window is used |
| Credit.NeitherCloses | aiomoqt/protocol.py:6597-6608 | both directions of a session together never close it |
| Credit.OpenIff | aiomoqt/protocol.py:1600-1623 | whatever a peer sends, the session stays open if and only if each request has the right parity, an id not seen or given up, and one below the limit in force when it came; and that limit moves by the window just when the peer is within half of one and holds fewer open than the cap |
| Credit.LimitsIff | aiomoqt/protocol.py:6597-6608 | a requester stays open if and only if each limit it is sent is above those before, and goes by the last |
| Credit.PeerRequests.OnRequest | aiomoqt/protocol.py:1600-1623 | the checks in their order, the id noted, the limit extended |
| Credit.PeerRequests.NoteId | aiomoqt/protocol.py:1337-1354 | the id noted in place, overflow included, is what the specification says |
| Credit.PeerRequests.ExtendCredit | aiomoqt/protocol.py:6542-6568 | the limit is raised half a window early, or a recheck is set |
| ControlStream.ChunksDoNotMatter | aiomoqt/protocol.py:2695-2764 | however a stream is cut into chunks, the messages, the retained tail and the close come out as if it had come whole |
| ControlStream.ReceivedIsSent | aiomoqt/protocol.py:2695-2764 | what a peer frames, type, two-byte length with the greater byte first, and body, is what the session takes, in however many chunks it comes, up to a message refused, which closes; what follows is retained when no frame begins it, and makes the stream truncated should it end there |
| ControlStream.FramesAreTaken | aiomoqt/protocol.py:1511-1526 | the same of one stretch of bytes, after any messages taken before |
| ControlStream.FrameIsRead | aiomoqt/protocol.py:1518-1526 | a frame, of any type width and any body under 65536 bytes, whatever follows it, is read as its message and its own length |
| ControlStream.UnframedIff | aiomoqt/protocol.py:1518-1526 | no message is read of bytes exactly when no frame begins them |
| ControlStream.NothingSkipped | aiomoqt/protocol.py:1511-1526 | every byte is accounted for: frames of the messages taken, in order, and a tail that no frame begins |
| ControlStream.UniChunksDoNotMatter | aiomoqt/protocol.py:3046-3071 | the control/data verdict and what is handed on depend on the bytes only |
| ControlStream.UniGoesByType | aiomoqt/protocol.py:3032-3071 | a uni stream is the control stream if and only if the type it begins with, however wide it is written and however it is cut up, is SETUP's, and else goes to the data plane whole |
| ControlStream.UniUndecidedIff | aiomoqt/protocol.py:3032-3044 | and is undecided exactly while no whole type has come |
| ControlStream.UndecidedIsAll | aiomoqt/protocol.py:3032-3044 | an undecided stash is all that was sent, fewer than nine bytes |
| ControlStream.HoldDoesNotMatter | aiomoqt/protocol.py:2931-2951 | whatever was held before the draft was settled, a draft-18 uni stream is what its bytes and its FIN make it |
| ControlStream.HoldDoesNotMatterForBidi | aiomoqt/protocol.py:2931-3003 | and so is a bidi control or request stream, in either encoding |
| ControlStream.WrittenIsRead | aiomoqt/protocol.py:1519-1521 | every integer, in either encoding and at every width it fits, is read back (section 16 of RFC 9000 for the first) |
| ControlStream.StreamReader.OnControlData | aiomoqt/protocol.py:2695-2764 | the loop takes every whole message, and reports a truncated one at FIN |
| ReplyQueue.RepliesCreditedInOrder | aiomoqt/protocol.py:1681-1694 | the i-th reply is credited to the i-th message sent, other messages between and updates queued before the stream opened included |
| ReplyQueue.RequestStream.NextReplyOwner | aiomoqt/protocol.py:1681-1694 | whom a message is for, and what is left waiting |
| ReplyQueue.RequestStream.Update | aiomoqt/protocol.py:5033-5049 | an update waits for its reply in the order sent, on the stream or until it opens |
| ReplyQueue.RequestStream.OnOpened | aiomoqt/protocol.py:4602-4618 | the opener goes first, then the updates in order |
| Prefixes.PeerTable.Admit | aiomoqt/protocol.py:4355-4386 | a request is admitted exactly when it clashes with none held; names stay single and prefixes an antichain |
| Prefixes.PeerTable.Move | aiomoqt/protocol.py:4482-4501 | a prefix moves exactly when it lands on no other of its kind |
| Prefixes.PeerTable.Covering | aiomoqt/protocol.py:5911-5923 | the SUBSCRIBE_TRACKS found to cover a namespace is the only one, whatever order the table is gone through in |
| Prefixes.AtMostOneCovers | aiomoqt/protocol.py:6699-6707 | at most one admitted SUBSCRIBE_TRACKS covers a namespace |
| Prefixes.ApartIff | aiomoqt/protocol.py:4355-4386 | the table holds no two that clash if and only if every lookup, by full name, of an announcement or of a published track, has one answer at most |
| Prefixes.ClashIffShared | aiomoqt/protocol.py:4355-4386 | two entries clash if and only if something could be found for both |
| Prefixes.ClashIsAmbiguous | aiomoqt/protocol.py:4371-4378 | two prefixes clash if and only if some namespace would be covered by both |
| Ranges.JoiningPartitions | aiomoqt/track.py:1507-1519 | a LATEST_OBJECT subscription and its joining FETCH split everything from the joining start on |
| Ranges.FetchServesAsked | aiomoqt/track.py:1502-1540 | a FETCH serves just what it asks for: the groups from so many back, or from the one named, up to the Joining Location, or what is there of its own range; and it is refused without a Joining Location at Forward State 1, or when there is nothing at its start |
| Ranges.WindowTakesWanted | aiomoqt/track.py:218-232 | a filter's window takes just what the filter is for |
| Ranges.OnlyLatestPartitions | aiomoqt/track.py:218-232 | no other window fits that FETCH |
| Ranges.ReportedEndAgrees | aiomoqt/protocol.py:1167-1191 | the subscriber accepts every End the publisher reports, and reads it as just what is served |
| ReceiveBudget.StreamBytes.OnStreamData | aiomoqt/protocol.py:1907-1922 | the count is the sum over live streams, and over the limit closes |
| ReceiveBudget.StreamBytes.Cleanup | aiomoqt/protocol.py:1770-1775 | a stream that is over gives back what it held |
| ReceiveBudget.EarlyObjects.Hold | aiomoqt/protocol.py:939-962 | what waited too long goes; the object is held behind the rest of its alias exactly when that leaves room for it under both bounds, and nothing else changes |
| ReceiveBudget.EarlyObjects.Expire | aiomoqt/protocol.py:964-974 | exactly what waited too long at the front of each queue goes |
| ReceiveBudget.ExpiryIsExact | aiomoqt/protocol.py:964-974 | of queues held in order of arrival expiry leaves exactly what is in time, and no empty queue |
| ReceiveBudget.EarlyObjects.Discard | aiomoqt/protocol.py:976-981 | an alias's objects go, and their counts |
| ReceiveBudget.EarlyObjects.Bind | aiomoqt/protocol.py:908-926 | what is in time is replayed in order of arrival, and nothing is left held |
| SubgroupSender.FinIsWhole | aiomoqt/track.py:266-407 | a generated stream that ends in FIN carries, in order, exactly what the window admits of its subgroup's ids, however Forward State went |
| SubgroupSender.HeadIsDue | aiomoqt/track.py:361-385 | a head replayed from the history is what the window admits before the object the stream resumes at |
| SubgroupSender.ShortIffLacking | aiomoqt/track.py:361-385 | a stream that opens at one of the subgroup's ids is short if and only if the history lacks, as this subgroup's, some earlier id that was made and that the window takes |
| SubgroupSender.HeadListsEarlier | aiomoqt/track.py:361-385 | and one that is not short begins with just those earlier ids, in order |
| SubgroupSender.CalmGroupEnds | aiomoqt/track.py:288-320 | with nothing disturbing a group from some point on, the stream open, or the one its first object taken opens, ends with it, in FIN just when it was not short and the history lacked nothing when it opened |
| SubgroupSender.CalmGroupIsFinned | aiomoqt/track.py:1950-2021 | in any run, a group not disturbed between its beginning and its end, by a change of Forward State, a cancellation or the peer stopping its stream, ends in one FIN with all that the window takes of it, or in nothing when that is nothing |
| SubgroupSender.StopIsFinal | aiomoqt/track.py:387-396 | once the peer stops a group's stream nothing of the group is opened or ended again |
| SubgroupSender.ForwardKeepsIff | aiomoqt/track.py:1250-1257 | in any run, a change of Forward State keeps the open stream if and only if it is to forward and the window takes something of the group past the last object sent |
| SubgroupSender.GroupsOnEnd | aiomoqt/track.py:1958-1985 | groups are numbered on end from the first one asked for |
| SubgroupSender.MadeBelowSize | aiomoqt/track.py:1978-2021 | the ids are those below the group size if and only if the subgroup number is |
| SubgroupSender.StepKeeps | aiomoqt/track.py:1950-2021 | every step of generate(), and Forward State set at any time, keeps the open stream whole or short |
| SubgroupSender.SubgroupSender.SendNext | aiomoqt/track.py:328-359 | an object is sent when the window takes it, on the open stream or on one with its head |
| SubgroupSender.SubgroupSender.SendHead | aiomoqt/track.py:361-385 | the missing ids are replayed, or the stream is short |
| SubgroupSender.SubgroupSender.NextGroup | aiomoqt/track.py:288-320 | the open stream ends in FIN, or in RESET when it is short |
| SubgroupSender.SubgroupSender.Forward | aiomoqt/track.py:1250-1257 | a stream whose next object is not taken is reset |
| LossyWriter.GroupsStayWhole | aiomoqt/agent/writer.py:220-294 | what production takes is strictly ascending, its groups each begin with group_start, and every completed put is taken, queued or counted as dropped |
| LossyWriter.PutKeeps | aiomoqt/agent/writer.py:248-274 | a put under any policy keeps the groups whole, but for a refused first of a group |
| LossyWriter.PolicyGivesUp | aiomoqt/agent/writer.py:248-274 | after any write the queue is just what its policy leaves: with room, the new item behind the rest; full, unchanged (block, error), without the new item (drop_new), or without the oldest and with the new one (drop_oldest); the group that so loses its first object goes whole, the new item with it, and no other item goes |
| LossyWriter.QueueWithinBound | aiomoqt/agent/writer.py:253-274 | whatever the policy, the queue never holds more than its bound |
| LossyWriter.GroupsWithinSize | aiomoqt/agent/writer.py:167-177 | no group gets longer than the size asked for |
| LossyWriter.AbandonKeeps | aiomoqt/agent/writer.py:276-294 | a group that lost its first object goes without a trace |
| LossyWriter.RefusalKeepsIff | aiomoqt/agent/writer.py:271-273 | a refused write leaves a sound writer if and only if it did not begin a group |
| LossyWriter.RefusedStartBreaks | aiomoqt/agent/writer.py:167-177 | after one that did, the next write breaks its group |
| LossyWriter.CancelKeepsIff | aiomoqt/agent/writer.py:232-246 | a cancelled wait for room leaves a sound writer if and only if it held no group's first object, or the group was ended meanwhile |
| LossyWriter.CancelledStartBreaks | aiomoqt/agent/writer.py:232-246 | after one that did, the next write breaks its group |
| LossyWriter.QueueWriter.PutNext | aiomoqt/agent/writer.py:220-274 | numbering and queueing in place, under each policy |
| LossyWriter.QueueWriter.Append | aiomoqt/agent/writer.py:167-177 | a write starts a group when none is open or the open one is full |
| LossyWriter.QueueWriter.BeginGroup | aiomoqt/agent/writer.py:155-165 | a snapshot starts a group |
| LossyWriter.QueueWriter.AbandonGroup | aiomoqt/agent/writer.py:276-294 | the queue drained and filled again without the group |
| LossyWriter.QueueWriter.Get | aiomoqt/agent/writer.py:71-81 | production takes the oldest |
| CatalogTrack.OpenGroupMakesCatalog | aiomoqt/media/broadcast.py:161-220 | whenever the emitter may append, the open group's Object 0 and deltas make the publisher's catalog |
| CatalogTrack.SubscriberConverges | aiomoqt/media/broadcast.py:476-500 | a subscriber fed those objects, first copies in order and duplicates at any time, ends with the publisher's catalog |
| CatalogTrack.IdleMayAppend | aiomoqt/media/broadcast.py:117-121 | an emitter that serves a forwarding peer and has nothing queued may append, however it was paused and resumed |
| CatalogTrack.IdleConverges | aiomoqt/media/broadcast.py:195-220 | so once it has nothing left to do, a subscriber fed its objects, first copies in order, has the publisher's catalog |
| CatalogTrack.NothingIsLost | aiomoqt/media/broadcast.py:89-108 | over any run the publisher's catalog, with what is still queued laid over it in order, is the first catalog with every one handed over since, none lost, repeated or out of turn |
| CatalogTrack.StopsIff | aiomoqt/media/broadcast.py:195-220 | an emitter goes on until it is cancelled or a delta does not apply |
| CatalogTrack.ServeStartsWhole | aiomoqt/media/broadcast.py:122-131 | whatever an emitter that replaced another sends begins with a whole catalog as Object 0 |
| CatalogTrack.SentOnlyForwarded | aiomoqt/media/broadcast.py:202-207 | no object goes out at Forward State 0, and what went out stays |
| CatalogTrack.SentOnEnd | aiomoqt/media/broadcast.py:167-192 | what goes out is numbered without a gap, the next of its group or the first of the next group |
| CatalogTrack.StepOk | aiomoqt/media/broadcast.py:89-121 | pausing, resuming, folding, queueing and replacing the emitter keep that |
| CatalogTrack.CatalogPublisher.EmitTurn | aiomoqt/media/broadcast.py:195-212 | one turn of the emitter's loop |
| CatalogTrack.CatalogPublisher.PublishCatalog | aiomoqt/media/broadcast.py:96-108 | queued while a peer is served, else current at once with the queue dropped |
| CatalogTrack.MediaSubscriber.OnCatalogObject | aiomoqt/media/broadcast.py:476-500 | an object is applied once, past the last one applied |
| Catalogs.KeysKeptIff | aiomoqt/media/catalog.py:298-345 | an operation taken lets no two tracks share a key, if and only if it is no update that gives its track the key of another |
| Catalogs.ApplyKeepsKeysIff | aiomoqt/media/catalog.py:278-296 | keys stay unique all through a delta update if and only if none of its updates does that |
| Catalogs.OwnNameIsFree | aiomoqt/media/catalog.py:305-321 | an update that names its track by its own name never does |
| Catalogs.RenameShares | aiomoqt/media/catalog.py:305-321 | two tracks and an update through parentName after which they share a name |
| Catalogs.AddThenRemove | aiomoqt/media/catalog.py:298-327 | removing undoes adding, if and only if the track has a namespace or its name is no other track's |
| Catalogs.OpChanges | aiomoqt/media/catalog.py:298-345 | when each operation on a track is taken, and all it changes: one added last, one removed, one replaced where it is, or a copy of the one parent added under a key of its own |
| Catalogs.MergedFields | aiomoqt/media/catalog.py:312-321 | an update or clone keeps each field the track gives, whichever it is, and has the parent's others |
| Catalogs.ApplyMakes | aiomoqt/media/catalog.py:278-296 | a delta update takes its steps in order up to the first refused and keeps what those made; only one taken whole brings its time and init data |
| Catalogs.CatalogObject.ApplyUpdate | aiomoqt/media/catalog.py:278-296 | operations run in turn, each on the result of the one before; one refused leaves those before it done |

## Left out

- The transport, TLS, setup and stream priorities: an oracle says what a call comes to and how many bytes a stream still holds.
- Wire codecs: a stream's bytes come from a function of the encoder's inputs; a control message's body is not parsed further, and a function says whether the session accepts it after those before it.
- DATAGRAM and PER_OBJECT mappings of `SubgroupDelivery`, and datagram sharing in the fan-out: the group promise is about PER_GROUP.
- Statistics, logging, stall reports, pacing and delivery callbacks; the deadline is an arbitrary "expired" at each turn.
- LaneRuns.FinMeansWhole: takes END_TRACK as one step, since it opens a stream no object is written on; group ids ascend and group_start marks each group's first object, as the lane's documentation asks of its source.
- LaneObjects.SendLane.Wake: resets of streams are taken not to raise; `parked` and `busy` are read off the phase the writer task is suspended in.
- Fanout.FanoutDelivery.Write: an error that ends the track is not modelled; end_group, end_track, reset_group and drop_session only loop over the lanes.
- HistoryObjects.ObjectHistory.Fetch: properties held as a callable are taken as already resolved; the built-in sort is a selection of the least key in turn.
- HistoryObjects.ObjectHistory.Add: the dict is a list of groups in order of insertion, looked up by going through it; what a record is charged comes with it.
- Credit.NeverCloses: the ids of d14's SUBSCRIBE_UPDATE, which the receiver does not record, and GOAWAY.
- ControlStream.UniChunksDoNotMatter: one stream at a time, with no control stream bound before its first bytes; the data plane is handed bytes and what it makes of them is not part of this.
- SubgroupSender.FinIsWhole: each send is one step, under a fixed window; LOC timestamps and padding are part of an arbitrary content function.
- LossyWriter.GroupsStayWhole: runs where a group's first object is refused, or cancelled while it waits with the group not ended, are those of the exception above; the sentinel that ends production is left out, as nothing is queued after it.
- CatalogTrack.SubscriberConverges: an object's payload is the catalog itself, not its JSON text; catalogs are of a version the subscriber knows; a caller changing a catalog it has handed over is not modelled, nor is finish() with its End of Track.
- Prefixes.PeerTable.Admit: refusals for other reasons are one flag.
- Draft 20 ranges, object bounds, relays, readers, the examples and the media formats: they add cases of the same kinds.
