# A verified model of the server's stateful cores

The server registers users, pairs two peers over a relay, and hosts one group room. This project
models the parts of it that keep state, and proves what holds of them whatever the interleaving:

- **Relay sessions** (`src/relay.rs`, records in `src/state.rs`). `RelayPipe` is one `PendingRelay`
  with its two tasks: every lock, channel operation, socket read and socket write is one event.
  `RelayDelivery` says what such a session delivers and what ends it; `RelayRelease` is a variant that
  closes sessions as `DESIGN.md:184` intends. `RelayTable` is the two tables, the upgrades that move a
  session from one to the other, and the sweeper, with one pipe inside each record; `RelaySafety`,
  `RelayRaces`, `RelayCapacity`, `RelayRetention` and `RelayLifecycle` state what whole runs guarantee,
  and `RelayRecords` carries the results about one session over to every record of the server.
  `RelayTasks` and `RelayServer` are the tasks and handlers as methods on mutable fields. Each method is
  proved to be an event or a run of events, to keep the invariants, and to change its fields as its
  contract spells out.
- **The group room** (`src/group.rs`). `Room` has one event for each lock and SQL statement of the
  WebSocket handler, the join and leave requests and the broadcast. `RoomHistory` relates the trimmed
  table to the log of everything ever posted, `RoomDelivery` tracks who is given which frame in which
  order, `RoomPosting` follows messages from the client that sends them; `RoomGuarantees`,
  `RoomOwnership`, `RoomOrder`, `RoomMembers`, `RoomOwner` and `RoomCapacity` state the results, and
  `RoomRuns` has runs that show what can go otherwise. `RoomServer` is the handlers as methods,
  `Broadcast` with its loop over the senders; the room is always in a state that a run from the empty
  room reaches, so the results hold of it.
- **The rate limiter** (`src/rate_limit.rs`), in `RateLimit`.
- **Accounts, tokens and invites** (`src/discovery.rs`, tables in `src/db.rs`). `Accounts` has the
  handlers as functions on the tables with their invariants, `ClosedRegistration` counts accounts
  against invites, `Authentication` says which tokens are accepted for whom after each handler,
  `AccountServer` carries the handlers out statement by statement, `Expiry` is the
  text comparison that decides whether a token has expired, `InviteCode` the invite codes. `Directory`
  says what all of this means without row numbers and foreign keys, as one map from lower-cased names to
  accounts, and every run of the handlers is proved to be a run of it.

Runs are sequences of events checked one by one by a predicate `Reaches`. State that only records the
past (the log of all posts, what was accepted, delivered and discarded, the identifiers handed out) is
part of the model states and no part of the server. In the handler classes it is ghost or belongs to the
values that stand for running tasks.

Some statements one might expect are false of the code. Each is refuted by a run or an input, and where
the code does meet it is stated exactly:

- `DESIGN.md:184` says that a session closes when one of its clients disconnects. The code never closes
  the other side: `OnlyItsOwnSocketEndsTheJoiner`, `OnlyItsOwnSocketEndsTheCreator`. A variant that
  gives the senders to the tasks does: `JoinerEndsIffSocketOrPeer`, `CreatorEndsIffSocketOrPeer`,
  `CreatorLeavingClosesTheJoiner`, `JoinerLeavingClosesTheCreator`, `JoinerLeavingClosesTheWaitingCreator`.
- Frames buffered for the joiner reach it once it has arrived. As long as B has not left, frames from A
  are lost if and only if the creator withdraws with a buffer it has not flushed: `OnlyWithdrawalDiscards`,
  `ConservedUnlessAbandoned`, `ArrivedJoinerMayMissTheBuffer`. While the creator waits, flushes or is in
  phase 2, none is: `RunningSessionDelivers`. Whatever is sent to a side that has left is lost as well;
  what that side has is a prefix all the same: `DeliveredIsPrefix`.
- Each token of a session is good for one socket. Two overlapping upgrades both succeed with the
  creator's token, and then the joiner's admits one socket to each of the two records:
  `OverlappingUpgradesBothSucceed`, `OverlapAdmitsTwoJoiners`. There is no other way:
  `SecondCreatorIffOverlap`, `SecondTokenAdmitsTwiceIffOverlap`, `TwoRecordsIffOverlap`,
  `TokensAreSingleUse`.
- The session maximum holds. With at most m creations and upgrades under way the tables reach
  max_sessions - 1 + m and never more, so it holds if and only if m is at most one: `SessionCap`,
  `SessionCapIsReached`, `SessionMaximumHoldsIff`.
- The member maximum holds. With J joins at once and no failed count the room reaches
  max_members - 1 + J and never more; a count that fails reads as zero (`src/group.rs:108-115`) and lets
  a join into a full room, so then there is no bound even for joins one at a time. The maximum holds if
  and only if joins run one at a time and every check counts, or there are none: `MemberCap`,
  `MemberCapIsReached`, `UncountedJoinsAreUnbounded`, `MemberMaximumHoldsIff`.
- An expired token is refused. It is accepted until the end of the UTC day of its expiry:
  `NotExpiredIsDateOrder`, `ComparisonIsExactUnlessLaterThatDay`, `ExpiredTokenAccepted`.
- The first member, and no other, becomes the owner. Two joins that overlap both do: `AtMostOneOwner`,
  `SecondOwnerIff`, `OverlappingJoinsMakeTwoOwners`.
- The newest connection of a group member stays registered. A replaced handler of the same name that
  leaves closes it: `LeavingMayCloseTheNewest`, `NewestConnectionIsClosed`.
- All members see broadcasts in the same order. If one broadcast has ended before the other begins they
  do: `OneAfterTheOtherIsOrdered`, `FramesAreASlice`. Two that overlap can still reach two connections in
  opposite orders exactly when each connection has the two in its order already, or is still owed the
  second and has or is owed the first: `OppositeOrdersIff`, `NoOrderBetweenSenders`, `LocksOverlap`,
  `OppositeOrders`.

## Model

| member | source | states |
|---|---|---|
| RelayPipe.StepKeepsInv | src/relay.rs:208-303 | every event of either task, in any order, keeps frame conservation both ways, the rendezvous state and the reference counts |
| RelayPipe.RunKeepsInv | src/relay.rs:208-303 | the same over whole runs |
| RelayPipe.AcceptedIsSent | src/relay.rs:230-305 | over any run, what the two tasks have accepted is exactly the text and binary frames their sockets yielded, in order |
| RelayDelivery.ConservedUnlessAbandoned | src/relay.rs:223-305 | while B can receive, the text and binary frames A's socket yielded in the run are delivered + in hand + queued + buffered + discarded, in order, and while A can, those B's socket yielded are delivered + in hand + queued; nothing is discarded, and so nothing lost, if and only if the run has no withdrawal of the creator with a non-empty buffer, and what is discarded is that buffer |
| RelayDelivery.OnlyWithdrawalDiscards | src/relay.rs:234-244 | an event discards frames if and only if it is the creator's withdrawal with a non-empty buffer, and then discards that buffer |
| RelayDelivery.DiscardedIffAbandoned | src/relay.rs:234-244 | the same over whole runs from any state in which nothing has been discarded |
| RelayDelivery.DeliveredIsPrefix | src/relay.rs:208-305 | each side has always received a prefix of the data frames the other's socket yielded, whatever was dropped |
| RelayDelivery.BothTakesSucceed | src/relay.rs:215-218 | the creator finds the receiver it takes and starts waiting, the joiner finds its own and attaches, and at most one joiner ever comes |
| RelayDelivery.WakeUpIsNeverLost | src/relay.rs:226-246 | the creator reaches phase 2 only after a joiner took its receiver; from a joiner's notification on the permit is there, whether the creator has started or not, until the creator has used it or ended |
| RelayDelivery.ReceiveAlwaysYieldsAFrame | src/relay.rs:263-268 | a running task's channel has a living sender, so the arm for a closed channel is never taken |
| RelayDelivery.OnlyItsOwnSocketEndsTheJoiner | src/relay.rs:286-302 | the joiner's loop ends in an event if and only if its own socket ends, fails a write or yields a pong or a close frame |
| RelayDelivery.OnlyItsOwnSocketEndsTheCreator | src/relay.rs:254-270 | the same of the creator in phase 2 |
| RelayDelivery.WhatEndsTheWaiting | src/relay.rs:226-246 | a waiting creator goes on to the flush exactly at the wake-up, and withdraws exactly at its deadline or when its socket ends or yields a close frame |
| RelayDelivery.DrainDelivers | src/relay.rs:295-300 | from any reachable state with a running joiner whose writes succeed, the whole queue is delivered in order |
| RelayDelivery.RunningSessionDelivers | src/relay.rs:226-305 | from every reachable state with a running joiner and a creator waiting, flushing or in phase 2, the wake-up, flush and draining still to come bring B exactly the data frames A's socket yielded |
| RelayDelivery.LiveCreatorReceivesEverything | src/relay.rs:263-268 | in phase 2 the creator's own queue can be drained so that A has exactly the data frames B's socket yielded |
| RelayDelivery.FlushedSessionDelivers | src/relay.rs:248-258 | once the buffer is flushed a run brings B exactly the data frames A's socket yielded, even after A has left |
| RelayDelivery.ArrivedJoinerMayMissTheBuffer | src/relay.rs:234-237 | a concrete run in which the joiner has arrived and a buffered frame is lost |
| RelayRelease.EveryRunIsARun | DESIGN.md:184 | the variant that gives the senders to the tasks does whatever the relay does |
| RelayRelease.JoinerEndsIffSocketOrPeer | DESIGN.md:184 | in the variant an event ends the joiner if and only if its own socket does, or A has left and nothing is on its way any more |
| RelayRelease.CreatorEndsIffSocketOrPeer | DESIGN.md:184 | in phase 2 an event ends the creator if and only if its own socket does, or B has left and nothing is on its way any more |
| RelayRelease.CreatorLeavingClosesTheJoiner | DESIGN.md:184 | in the variant, once A has left, B's task can be brought to its end with everything on its way delivered first |
| RelayRelease.JoinerLeavingClosesTheCreator | DESIGN.md:184 | the same for A in phase 2 |
| RelayRelease.JoinerLeavingClosesTheWaitingCreator | DESIGN.md:184 | a creator still waiting or flushing whose joiner has come and gone is brought to its end as well, with everything B sent delivered first |
| RelayTasks.PendingRelay.constructor | src/relay.rs:153-164 | the record as the upgrade handler builds it, with both receivers in place |
| RelayTasks.PendingRelay.CreatorDropped | src/relay.rs:178-180 | the upgrade fails and the creator's task is dropped before it runs: the published record keeps its place in the table without a creator |
| RelayTasks.PendingRelay.StartCreator | src/relay.rs:215-224 | the creator takes its receiver; by the invariant it is always there, so the creator always starts waiting |
| RelayTasks.PendingRelay.WaitingRead | src/relay.rs:230-240 | phase 1 puts every text and binary frame on the buffer, ignores pings and pongs, withdraws on close, error or end |
| RelayTasks.PendingRelay.Notified | src/relay.rs:229 | the wake-up consumes the permit and ends phase 1; a joiner has taken its receiver by then |
| RelayTasks.PendingRelay.DeadlinePassed | src/relay.rs:241 | the deadline makes the creator withdraw |
| RelayTasks.PendingRelay.Withdraw | src/relay.rs:234-244 | the withdrawing creator ends and drops its buffer |
| RelayTasks.PendingRelay.FlushNext | src/relay.rs:249-251 | one round sends the oldest buffered frame |
| RelayTasks.PendingRelay.Flush | src/relay.rs:249-251 | the loop sends the buffer in order and in full, and is a run of flush events; after it, unless B has left, all A sent is delivered, in B's hand or queued |
| RelayTasks.PendingRelay.LiveRead | src/relay.rs:256-262 | phase 2 puts every text and binary frame on the channel unless B has left, goes on after a ping, ends on anything else |
| RelayTasks.PendingRelay.ReceiveFromB | src/relay.rs:263-265 | the creator takes the oldest frame of its channel; there always is one, so the receive never ends the task |
| RelayTasks.PendingRelay.WriteToA | src/relay.rs:265 | and writes that very frame to A, ending if the write fails; what A has is a prefix of what B sent |
| RelayTasks.PendingRelay.JoinerDropped | src/relay.rs:198-200 | the same of the joiner's task: its receiver stays in the record, which nobody can join any more |
| RelayTasks.PendingRelay.JoinerTake | src/relay.rs:276-279 | the joiner takes its receiver; it is always there, so the joiner always attaches |
| RelayTasks.PendingRelay.NotifyCreator | src/relay.rs:281-284 | the joiner leaves a permit and clones its sender |
| RelayTasks.PendingRelay.JoinerSocket | src/relay.rs:288-294 | the joiner puts every text and binary frame on the channel to A unless A has left, goes on after a ping, ends on anything else |
| RelayTasks.PendingRelay.ReceiveFromA | src/relay.rs:295-297 | the joiner takes the oldest frame of its channel; there always is one, so the receive never ends the task |
| RelayTasks.PendingRelay.WriteToB | src/relay.rs:297 | and writes that very frame to B, ending if the write fails; what B has is a prefix of what A sent |
| RelayTable.StepKeepsInv | src/relay.rs:75-326 | every event of any handler, task or the sweeper keeps tables and records consistent, races included |
| RelayTable.RunKeepsInv | src/relay.rs:75-326 | the same over whole runs, under any schedule |
| RelaySafety.SessionsAreCreated | src/relay.rs:58-84 | the sessions known are those the run's creations made, each with the tokens it was made with |
| RelaySafety.RendezvousIsSafe | src/relay.rs:141-203 | under any races a record has one creator, who showed the first token its session was created with, and at most one joiner, who showed the second, and both takes succeed |
| RelaySafety.TablesDisjoint | src/relay.rs:166-173 | under any races no session id is in both tables |
| RelayRaces.SecondCreatorIffOverlap | src/relay.rs:142-169 | a used first token admits again if and only if an earlier upgrade of the session has not yet removed its entry |
| RelayRaces.SecondTokenAdmitsTwiceIffOverlap | src/relay.rs:142-195 | an upgrade can be followed by a run in which its record and an earlier one of the session each admit a joiner if and only if an earlier upgrade has not yet removed its entry |
| RelayRaces.TwoRecordsIffOverlap | src/relay.rs:142-195 | over any run a session has two records if and only if the run has such an overlap, and each record admits at most one joiner, so that without one the second token admits one in all |
| RelayRaces.OverlapAdmitsTwoJoiners | src/relay.rs:153-195 | from any state with two overlapping upgrades of a session a run leads both records to a joiner with the second token |
| RelayRaces.UpgradeFinishes | src/relay.rs:153-173 | an upgrade that has cloned its entry can be carried to its end whatever else is under way, and its record is then the one under the session id |
| RelayRaces.OverlappingUpgradesBothSucceed | src/relay.rs:142-195 | a run from empty tables in which two overlapping upgrades are admitted by one first token, both serve a creator, and one second token admits a joiner to each |
| RelayRecords.EveryRecordIsASession | src/relay.rs:141-327 | in every run of the server, races and sweeping included, what happened to a record is a run of the session's pipe in which the sockets yielded what the record's own did |
| RelayRecords.EverySessionConserves | src/relay.rs:141-327 | so for every session of the server, what A's and B's sockets yielded is delivered, in hand, queued, buffered or discarded, in order |
| RelayRetention.LeavesInitIff | src/relay.rs:166-169 | an event takes a session out of the first table if and only if it is the removal by an upgrade, or the sweep of a session at least the timeout and thirty seconds old |
| RelayRetention.LeavesPendingIff | src/relay.rs:171-244 | an event takes or replaces an entry of the second table if and only if it admits the joiner, is a withdrawal of a creator or a publication of the session, or sweeps a record at least that old |
| RelayRetention.YoungSessionsStay | src/relay.rs:311-327 | over any run, a session younger than the timeout and thirty seconds is still in the first table if and only if no upgrade of it was carried out |
| RelayRetention.YoungRecordsStay | src/relay.rs:311-327 | over any run, a record younger than that is still in the second table if and only if no joiner was admitted, no creator of the session withdrew and no other upgrade of it was published |
| RelayRetention.DeadlineIsTheTimeout | src/relay.rs:223-244 | over any run, the deadline of a waiting creator can pass if and only if the timeout has gone by since its task first ran |
| RelayCapacity.SessionCap | src/relay.rs:43-56 | with at most m creations and upgrades together under way, the two tables and the creations past their check never exceed max_sessions - 1 + m |
| RelayCapacity.SessionCapIsReached | src/relay.rs:43-56 | for every m of at least one a run with at most m of them under way puts exactly max_sessions - 1 + m sessions in the tables |
| RelayCapacity.SessionMaximumHoldsIff | src/relay.rs:43-56 | max_sessions holds over all runs with at most m of them under way if and only if m is at most one |
| RelayCapacity.SessionCapOneAtATime | src/relay.rs:43-56 | handlers that run one at a time, upgrades among them, never exceed max_sessions |
| RelayCapacity.SessionCapByKind | src/relay.rs:43-56 | with at most c creations and r upgrades the bound is max_sessions - 1 + c + r |
| RelayLifecycle.TokensAreSingleUse | src/relay.rs:141-201 | when upgrades are not interleaved a session has at most one creator and at most one joiner in its whole life |
| RelayLifecycle.RankNeverDrops | src/relay.rs:141-203 | no event takes a session back to an earlier place |
| RelayLifecycle.SessionsMoveForward | src/relay.rs:141-203 | over any run with upgrades not interleaved, a session only moves forward, and out of both tables it stays out |
| RelayLifecycle.EntriesAreYoung | src/relay.rs:311-327 | with a timely sweeper no entry of either table is ever as old as the timeout plus ninety seconds |
| RelayServer.RelayServer.constructor | src/state.rs:64-65 | the server starts with empty tables |
| RelayServer.RelayServer.CheckRoom | src/relay.rs:43-56 | the check under both locks admits exactly below the cap |
| RelayServer.RelayServer.InsertSession | src/relay.rs:75-84 | the session enters the first table with the present time |
| RelayServer.RelayServer.RelayCreate | src/relay.rs:42-90 | refused if and only if the tables are full; otherwise a run of check and insertion, or no change when the audit row fails |
| RelayServer.RelayServer.Upgrade | src/relay.rs:141-173 | the four critical sections of a creator upgrade, in order: the session leaves the first table, its record enters the second with the second token, and the creator's task can run |
| RelayServer.RelayServer.TakePending | src/relay.rs:184-195 | takes the entry if and only if it is there and the token is its second one |
| RelayServer.RelayServer.RelayWs | src/relay.rs:130-204 | exactly when each reply is given, in terms of the tables and the tokens in them, the events each admission consists of, no change on a refusal; a creator has shown the session's first token, a joiner the second, is the first of its record and finds the receiver |
| RelayServer.RelayServer.Withdraw | src/relay.rs:234-244 | a creator that leaves phase 1 ends its task and takes its session out of the table |
| RelayServer.RelayServer.Cleanup | src/relay.rs:314-325 | one round of sweeping is the three sweeper events, and an entry of either table remains if and only if it is younger than the timeout and thirty seconds |
| RelayServer.RelayServer.SweepInitTable | src/relay.rs:319-321 | `retain` on the first table keeps exactly what is younger than the timeout and thirty seconds |
| RelayServer.RelayServer.SweepPendingTable | src/relay.rs:323-325 | `retain` on the second table keeps exactly what is younger than that and drops the references of what goes |
| RoomHistory.TrimOfSuffix | src/group.rs:343-350 | the delete statement on a table that is the end of the log leaves its last rows |
| RoomHistory.ReadOfSuffix | src/group.rs:246-257 | the reversed select on such a table yields the end of the log in the order of posting |
| RoomHistory.TableIsEndOfLog | src/group.rs:335-350 | under any interleaving the table is the end of the log, of at least min(limit, total) rows and at most limit plus untrimmed posters plus failed trims |
| RoomHistory.HistoryReadsTheLog | src/group.rs:241-259 | a read at any moment returns exactly the last min(limit, total) posts ever made, in order |
| RoomPosting.AgentsAreArrivals | src/group.rs:143-291 | every handler acts for the user it was started for, by the events alone |
| RoomPosting.LogIsWritten | src/group.rs:326-342 | the log is the messages whose sender may post (anybody in a group, owners and admins in a channel) and that could be written, each once and in order |
| RoomPosting.HistoryIsWhatWasWritten | src/group.rs:241-259 | a read yields the last min(limit, total) of those messages |
| RoomPosting.OpenRoomsStoreEverything | src/group.rs:326-342 | in a room that is no channel the log is, by the events alone, every message received that could be written, under the name of the user whose connection it came in on |
| RoomPosting.EveryMessageIsBroadcast | src/group.rs:326-359 | each message taken from a connection is broadcast by its handler exactly once and in order, written or not; only the last may still be on its way |
| RoomPosting.ListenersHearEverything | src/group.rs:326-388 | a connection that registered before another broadcast anything and is still open has been given exactly the messages taken from that other one |
| RoomDelivery.StepKeepsInv | src/group.rs:288-388 | every event keeps map ownership, broadcasts aimed at open channels only, and per-sender order |
| RoomDelivery.RunKeepsInv | src/group.rs:288-388 | the same over whole runs |
| RoomGuarantees.StepKeepsAllOk | src/group.rs:291-388 | every event keeps logged messages tied to their broadcasts and what was read tied to the log |
| RoomGuarantees.NoGap | src/group.rs:291-388 | of a still registered connection: a stored message whose broadcast is complete is in its place in the history shown, or was put on the channel, or had at least limit newer ones when the history was read |
| RoomOwnership.EntriesAreOwned | src/group.rs:291-294 | each map entry belongs to a running handler of that user; a registered handler owns its entry if and only if its channel is open |
| RoomOwnership.FramesAreASlice | src/group.rs:383-388 | what a connection was given by a sender is a contiguous slice of that sender's broadcasts starting at registration, reaching to the last one while the channel is open |
| RoomOwnership.ClosedIsFinal | src/group.rs:366-380 | in every run from the empty room, nothing reaches a channel once it is closed and it never opens again |
| RoomOwnership.ClosedChannelDrains | src/group.rs:366-374 | a closed channel yields exactly its remaining queue and then ends the handler |
| RoomOwnership.LeavingMayCloseTheNewest | src/group.rs:379 | a leaving handler closes another one of its user if and only if it had been replaced and the user has an entry |
| RoomRuns.NewestConnectionIsClosed | src/group.rs:379 | a run from the empty room: a member connects twice, the first socket ends, and its handler closes the second connection |
| RoomOrder.OneAfterTheOtherIsOrdered | src/group.rs:383-388 | if one broadcast has ended before another begins, every connection ever given both has them in that order, whoever the senders |
| RoomOrder.OppositeOrdersIff | src/group.rs:383-388 | from any reachable state two begun broadcasts can come to reach two connections in opposite orders if and only if each connection has them in its order, or is still owed the second and has or is owed the first |
| RoomOrder.NoOrderBetweenSenders | src/group.rs:383-388 | two broadcasts that share the lock can reach two recipients in opposite orders |
| RoomOrder.LocksOverlap | src/group.rs:383-388 | any two broadcasts about to start can share the lock |
| RoomRuns.OppositeOrders | src/group.rs:383-388 | a run from the empty room that leaves two connections with the same two frames in opposite orders |
| RoomMembers.StepKeepsInv | src/group.rs:172-190 | roles in table, connections and log all stem from counts of the member table |
| RoomMembers.OwnerFoundRoomEmpty | src/group.rs:172-186 | if no count failed, every member whose row says owner is a user one of whose joins saw an empty member table |
| RoomMembers.ChannelPosterFoundRoomEmpty | src/group.rs:326-342 | in a channel every stored message is from a user one of whose joins saw an empty member table, if no count failed |
| RoomOwner.AtMostOneOwner | src/group.rs:172-186 | as long as no two joins overlap between count and row and no count fails, there is never more than one owner |
| RoomOwner.SecondOwnerIff | src/group.rs:172-186 | a step makes a second owner if and only if it writes the row of a new member granted ownership while there is an owner |
| RoomOwner.OverlappingJoinsMakeTwoOwners | src/group.rs:172-186 | a run in which two joins that overlap both become owners |
| RoomCapacity.MemberCap | src/group.rs:147-186 | with at most J joins between check and row and no failed check, members and pending joins never exceed max_members - 1 + J |
| RoomCapacity.MemberCapIsReached | src/group.rs:147-186 | for every J of at least one a run with at most J joins at once reaches exactly max_members - 1 + J members |
| RoomCapacity.UncountedJoinsAreUnbounded | src/group.rs:108-115 | if checks may fail to count, which reads as zero, joins that run one at a time bring any number of members |
| RoomCapacity.MemberMaximumHoldsIff | src/group.rs:147-186 | max_members holds over all runs with at most J joins at once if and only if J is zero, or one and no check fails to count |
| RoomCapacity.MemberCapOneAtATime | src/group.rs:147-186 | joins that run one at a time, none of whose checks fails to count, never exceed max_members |
| RoomServer.GroupRoom.constructor | src/state.rs:66 | the room starts empty |
| RoomServer.GroupRoom.Broadcast | src/group.rs:383-388 | the whole new state of a broadcast, in whatever order the map yields its senders: each connection in the map has the frame once more and no other has it; and the run it is |
| RoomServer.GroupRoom.ServeAll | src/group.rs:385-387 | the loop serves every sender once |
| RoomServer.GroupRoom.ResolveMember | src/group.rs:80-89 | finds the member with a token, or there is none |
| RoomServer.GroupRoom.CheckRoom | src/group.rs:147-152 | the first count admits exactly below the maximum, or when it fails |
| RoomServer.GroupRoom.CountMembers | src/group.rs:172-174 | the role is owner if and only if the second count is zero or failed |
| RoomServer.GroupRoom.UpsertMember | src/group.rs:176-186 | a known user keeps the stored role and gets the new token |
| RoomServer.GroupRoom.GiveUp | src/group.rs:154-186 | a join or leave that fails changes no table and sends nothing |
| RoomServer.GroupRoom.GroupJoin | src/group.rs:143-196 | when each reply is given, the role replied, the new member table, that exactly the connections in the map get the join note with that role, and the run it is |
| RoomServer.GroupRoom.GroupLeave | src/group.rs:200-211 | refused if and only if nobody has the token, otherwise exactly that member is deleted and exactly the connections in the map get the leave note |
| RoomServer.GroupRoom.RegisterSender | src/group.rs:292-294 | the new sender replaces and closes the old one |
| RoomServer.GroupRoom.ReadSnapshot | src/group.rs:297-316 | the snapshot is read after registration and is the last min(limit, total) posts ever made, shown if history is on |
| RoomServer.GroupRoom.OpenSocket | src/group.rs:268-316 | refused if and only if nobody has the token; otherwise registered for that member with the stored role, with the end of the log as history |
| RoomServer.GroupRoom.InsertPost | src/group.rs:326-342 | taken if and only if the room is no channel or the role is owner or admin; then the message is filed and, if it could be written, is the new last row |
| RoomServer.GroupRoom.TrimPosts | src/group.rs:343-350 | the delete statement on the table |
| RoomServer.GroupRoom.PostMessage | src/group.rs:324-359 | taken if and only if the room is no channel or the role is owner or admin; then every connection in the map is given the message once, whatever the statements did, and the log has it if it was written |
| RoomServer.GroupRoom.TakeFrame | src/group.rs:366-374 | the oldest frame goes to the socket, and the loop ends on a failed write or a drained, closed channel |
| RoomServer.GroupRoom.LeaveLoop | src/group.rs:363 | the loop ends with its socket |
| RoomServer.GroupRoom.RemoveSender | src/group.rs:379 | the entry under the name goes and its sender is dropped, whosever it is |
| RoomServer.GroupRoom.CloseSocket | src/group.rs:379-380 | the entry is removed and exactly the connections left in the map get the leave note, as one run |
| RoomServer.GroupRoom.GroupHistory | src/group.rs:241-259 | the last min(limit, total) posts ever made, for members only |
| RateLimit.StoredTracksLog | src/rate_limit.rs:38-43 | at every later time the pruned vector filters to what the complete log filters to |
| RateLimit.RefusedIffLimitReached | src/rate_limit.rs:39-42 | refused if and only if limit accepted requests of the address came less than a window before |
| RateLimit.StoredIsFilteredLog | src/rate_limit.rs:39-43 | after a check the vector is the accepted log filtered to the window |
| RateLimit.AnyWindowBound | src/rate_limit.rs:29-45 | no half-open interval of window length ever holds more than limit accepted requests of an address |
| RateLimit.OtherAddressesDoNotMatter | src/rate_limit.rs:36-38 | table entry and decisions of an address are as if no other had asked |
| RateLimit.Window.Retain | src/rate_limit.rs:39 | the loop keeps exactly the recent entries, in order |
| RateLimit.Window.Check | src/rate_limit.rs:29-45 | updates the vector of the one address in place and decides |
| RateLimit.FiveAnHourSixtyAMinute | src/rate_limit.rs:19-27 | no hour ever holds more than five accepted registrations of an address and no minute more than sixty lookups |
| RateLimit.RateLimiter.AllowRegister | src/rate_limit.rs:20-22 | allowed if and only if fewer than five registrations of the address were allowed in the hour before, leaving the lookup table alone |
| RateLimit.RateLimiter.AllowLookup | src/rate_limit.rs:25-27 | allowed if and only if fewer than sixty lookups of the address were allowed in the minute before, leaving the registration table alone |
| Accounts.RegisterKeepsInv | src/discovery.rs:85-237 | registration keeps users within the cap, names unique, one presence row each, tokens linked, unique and limited |
| Accounts.RefreshKeepsInv | src/discovery.rs:372-414 | so does a refresh that evicts an oldest token |
| Accounts.HandleKeepsInv | src/discovery.rs:85-439 | so does every handler |
| Accounts.RunKeepsInv | src/discovery.rs:85-439 | and every run of them |
| Directory.HandlerServes | src/discovery.rs:85-439 | every handler does to the tables what the request does to the directory of lower-cased names, fields and answers included |
| Directory.TablesFollowTheDirectory | src/discovery.rs:85-439 | every run from empty tables is a run of the directory with the same answers, and the tables end up holding what the directory says, each token with its owner, time of issue and last day |
| Directory.FoundIsWhatWasSaid | src/discovery.rs:181-354 | over any run, the account and presence rows under a lower-cased name are, field by field, what the last registration, updates and heartbeats of that name said, and there are none if there was no registration or an unregistration since |
| Directory.VerdictIs | src/discovery.rs:90-179 | a registration gets the answer of the first objection there is to it in the directory, and is accepted if there is none |
| ClosedRegistration.HandleKeepsOneInvite | src/discovery.rs:106-229 | with registration closed every new account keeps exactly one invite as its own |
| ClosedRegistration.NewAccountsAreSpentInvites | src/discovery.rs:222-229 | new accounts are as many as the invites they hold |
| ClosedRegistration.ClosedRegistrationIsBounded | src/discovery.rs:106-119 | accounts never exceed the initial ones plus the invites |
| ClosedRegistration.UnregisterFreesOneInvite | src/discovery.rs:358-368 | unregistering frees that account's invite and no other |
| Authentication.IssuingAddsOneToken | src/discovery.rs:394-411 | a new token is accepted for its user through the calendar day ttl_days ahead and no later, or for ever without a lifetime; every other token is accepted as before |
| Authentication.RegisteringAddsOneToken | src/discovery.rs:181-229 | after a registration the new token lets in the new account and all other tokens mean what they did |
| Authentication.RefreshingTradesTokens | src/discovery.rs:376-411 | after a refresh the new token lets in its user, at the limit exactly the oldest one no longer does, all others mean what they did |
| Authentication.RefreshReplacesAtLimit | src/discovery.rs:378-392 | at the limit the oldest token is replaced, below it one is added |
| Authentication.CreatedIsGrantedAt | src/db.rs:42-50 | over any run, the creation time of a token row is that of the last request answered with the token |
| Authentication.EarlierTokensGoFirst | src/discovery.rs:378-392 | of two tokens of a user granted in the run one before the other, no refresh takes the later while the earlier is there |
| Authentication.UnregisteringLocksOutItsUser | src/discovery.rs:362-366 | after unregistering no token of that user is accepted and all others mean what they did |
| Authentication.RegisterThenUnregister | src/discovery.rs:181-229 | unregistering undoes registering in all tables but the two row counters, and in the invites if and only if the code sent was not already spent |
| Authentication.AcceptedTokenWasIssued | src/discovery.rs:443-457 | in every run, a newly accepted token was issued to that very user by a registration or a refresh of the run |
| AccountServer.AccountServer.constructor | src/db.rs:16-63 | the empty tables meet the invariant |
| AccountServer.AccountServer.ResolveToken | src/discovery.rs:443-457 | the user of a row with the hash that has no expiry or is not expired, or none if there is no such row |
| AccountServer.AccountServer.CheckRegistration | src/discovery.rs:90-179 | the checks in order, with the answer of the first that fails, and exactly when none does |
| AccountServer.AccountServer.Register | src/discovery.rs:85-237 | the statements carry out the specified registration and keep the invariant; field by field, the new account row, presence row, token row and the spent invite are the request's, all other rows are as before, and a refusal changes nothing |
| AccountServer.AccountServer.Lookup | src/discovery.rs:250-264 | finds the account under the lower-cased name with its presence row, which is what the directory has there, or nothing if nobody has it |
| AccountServer.AccountServer.Update | src/discovery.rs:318-340 | the presence row is written, with the present time, for the token's user only |
| AccountServer.AccountServer.Heartbeat | src/discovery.rs:344-354 | only the time of the presence row changes |
| AccountServer.AccountServer.Unregister | src/discovery.rs:358-368 | the delete with its cascades to presence and tokens and its nulls in invites |
| AccountServer.AccountServer.TokenRefresh | src/discovery.rs:372-414 | count, eviction and insertion carry out the specified refresh; the new row is created now and good for the configured days |
| AccountServer.AccountServer.InviteCreate | src/discovery.rs:418-439 | the invite is added, or the code clashes |
| Expiry.PaddedOrder | src/discovery.rs:205-210 | on zero-padded numbers text order is number order |
| Expiry.DayNumberOrder | src/discovery.rs:205-210 | calendar order is the order of day numbers |
| Expiry.DayNumberInClosedForm | src/discovery.rs:205-210 | day numbers are those of the Gregorian calendar |
| Expiry.StoredTimesOrder | src/discovery.rs:387 | on texts of the database's own, text order is the order of time |
| Expiry.NotExpiredIsDateOrder | src/discovery.rs:449-452 | the text comparison holds if and only if the expiry date is not before the current date |
| Expiry.ExpiryWithinADay | src/discovery.rs:449-452 | never rejected before expiry, never accepted 86400 seconds or more after |
| Expiry.ComparisonIsExactUnlessLaterThatDay | src/discovery.rs:449-452 | the comparison is right if and only if it is not later on the day of expiry than the expiry |
| Expiry.ExpiredTokenAccepted | src/discovery.rs:449-452 | a concrete expired token that is accepted |
| InviteCode.ValueOfSymbol | src/discovery.rs:426-427 | each symbol is in the alphabet, the modulus changes nothing and the symbol gives its five bits back |
| InviteCode.PartKeepsTwentyBits | src/discovery.rs:425-428 | a part keeps exactly the low twenty bits |
| InviteCode.DecodeCode | src/discovery.rs:424-430 | every random number can be read back from its code |
| InviteCode.CodeInjective | src/discovery.rs:424-430 | different numbers get different codes |
| InviteCode.CodesAreTheConsistentStrings | src/discovery.rs:424-430 | a string is a code if and only if it is well formed and its parts agree on bits 16 to 19, with nothing above |
| InviteCode.CodeSpelled | src/discovery.rs:425-430 | the nine characters of a code, each in terms of five bits of the number and the letters and digits the alphabet consists of |

## Left out

- HTTP routing, JSON, WebSocket framing, replies to pings, logging, configuration loading and start-up.
- Cryptography and encodings: a token stands for its hash, generated tokens and session ids are new, the sealing of the group key is one outcome.
- The version check, the username pattern, key decoding, IP parsing and the email check of a registration are outcomes the caller of the model chooses; their order and effects are modelled.
- `/info`, the member list and search: read-only reports. Of `/lookup` the limiter in front (`RateLimiter.AllowLookup`) and the row found are modelled, not the online flag, which is found by address and not by user.
- `relay_join` (src/relay.rs:95-121): it only reads the second token and writes an audit column.
- Configuration fields without effect in the code (`max_session_bytes`, `invite_only`, `require_invite`, `allow_file_relay`, `bytes_total`).
- Interleaving inside the account handlers: each is one step, as SQL constraints and a single writer would make it only if it were one transaction.
- Failed statements in the account handlers: a statement succeeds or the handler has not begun. In the room, failed inserts, trims, reads on connecting, counts, joins and leaves are modelled, the failed read of `/group/history` is not.
- Which frames a group client may send: a message that can be parsed and the end of the loop are events, other text is not an event, pings are not answered in the model.
- The race of two first joins to create the group key.
- Fairness and real time: safety and the existence of draining runs are proved, not that the scheduler takes them.
- One object graph for tables and tasks: `RelayServer` holds the pipe of each record as a value, `RelayTasks.PendingRelay` is the same pipe as an object, and the two are tied by the shared specification `RelayPipe.Step`.
- Aliasing of senders: a channel is a queue in its reader, and its senders are counted or named instead of being objects.
