# Verification of the relay, the health monitor and the two proxies

A Dafny model of the parts of this backend whose correctness spans several
functions, and proofs about it. `dafny verify dfyconfig.toml` checks everything.

## What is modelled

**The relay.** `ManagerSpec` is the channel manager as a state and its
transitions, `RelaySpec` the relay server's event handlers around it. A handler
that awaits a Socket.IO room operation is split at the await, and any other event
may fall in between. Channel objects live in a store and are named by their place
in it, so a reservation can point at an object that has left the map; every
object carries the history of the messages it accepted and of how each was
settled. `ChannelManager` and `RelayServer` are the same code as it runs, with
classes updated in place; their methods are proved to compute the transitions.
The properties are in `ManagerSafety` (the invariant), `Conservation`,
`ManagerOps`, `ManagerRouting`, `ManagerCleanup`, `ManagerAnswers`,
`ManagerAging`, `ManagerOrder`, `RelaySafety`, `RelayReservations`, `RelayOrder`
and `RelayHistory`; `RelayTheorems` spells out what they say of every run, and
`Traces` holds concrete ones. What clients are told, and what that says about the
relay, is in `RouteFaults`, `ManagerOutcomes`, `RelayAnswers` and `RelayOutcomes`.

What is handed to sockets is followed to the end. A parcel (`Mails`) is a stretch
of one channel object's settlement log that goes to one socket: a write, or the
batch in a join's answer. A join that switches channels owes its answer until the
previous room has been left. `RelayMail` reads off a state what an event will
send, `RelayFates` says which messages arrive, wait or are lost, and `RelayWire`
when they arrive in order.

**The rate limiter** (`RateLimits`), **the health monitor** (`Health`, `Routing`,
`HealthMonitor`), **the IPFS gateway fallback** (`GatewayCooldown`,
`GatewayFallback`), **admission slots** (`Slots`, for both proxies: the IPFS proxy
acquires without a client, `src/routes/ipfs.routes.ts:78-96`) and **the RPC answer
path** (`RpcService`).

## Reading the model

- One clock reading per event, and a clock that never steps back.
- Identifiers, keys and addresses are tokens compared for equality. A payload
  carries its serialised size, or none when it does not serialise; an offered key
  is absent, malformed or already decoded and re-encoded.
- Disconnecting a socket removes it and runs its disconnect handler in the same
  turn, as Socket.IO does. The environment may close a transport or change whether
  it is writable at any time, but never reopens it.
- A join says whether the client asked for an acknowledgement; without one it gets no
  answer. The answers to the other requests carry nothing that could be lost, so they
  are given as if asked for.
- Iteration over a map is in an arbitrary order. Where the code stops at the first
  hit, role uniqueness makes the hit unique; the sweep's result does not depend on
  the order.
- An IPFS request is driven by a list of visits that carry the clocks and the
  cooldowns of the gateway and of the later ones at that moment, so other requests
  may change the gateways in between. A gateway's own state is a separate machine
  fed with the answers of all requests.

## Where the code and its comments differ

- `src/relay/relayServer.ts:5` calls the routing stateless; the relay keeps
  buffers, reservations and listeners, and the model follows the code.
- `src/relay/channelManager.ts:260` refuses a third participant; because a rival
  for the role is refused or removed first, that refusal cannot occur
  (`ManagerOps.JoinKeepsSound`).
- `src/relay/relayServer.ts:567-573` answers that the counterparty's transport is
  unavailable; that branch cannot be reached either
  (`RelaySafety.DirectTargetArms`).
- In-order delivery does not hold of every run, for two reasons. Switching channels
  leaves the outstanding write behind, and its completion looks only at the old
  channel (`src/relay/relayServer.ts:466-476`, `src/relay/channelManager.ts:556-583`),
  so a later message can be written past a buffered one. And a switching join has
  taken the waiting messages out of the channel, and can be written to, before it
  answers with them (`src/relay/relayServer.ts:466-497`). `RelayWire.RunHandoverIff`
  says exactly which events break the order, `RelayWire.RunUnpassedIff` which ones
  lead there, and `Traces.SwitchingReorders` and `Traces.LateAnswerReorders` are a
  run for each.
- The messages in a join's answer can be lost, on a live socket too when the client
  asked for no acknowledgement (`src/relay/relayServer.ts:74-79`, `:488`):
  `RelayFates.LostIff` says exactly when, and `Traces.SilentJoinLosesBatch` is a run.
- `src/services/rpc/healthMonitor.ts:410-426`: an endpoint that is down can become
  stalled on one success and up on the next rise, before the success threshold.
  `Health.RecoversIff` says exactly when an endpoint comes up again,
  `Health.ShortRecoveryIff` when it does so early, and `Health.StallShortensRecovery`
  is a trace of four polls.

## Model

| member | source | states |
|---|---|---|
| `RelayTheorems.LedgersAreSums` | src/relay/channelManager.ts:598-618 | In every reachable state the per-channel, in-flight, per-address and total ledgers are the sums over buffers and reservations, and an address is listed exactly if it is charged for a byte |
| `RelayTheorems.BudgetsHold` | src/relay/channelManager.ts:453-519 | In every reachable state buffered plus in-flight bytes keep the channel, address and global budgets, and every buffer holds at most 50 messages |
| `RelayTheorems.FifoIsTheTombstones` | src/relay/channelManager.ts:361-372 | In every reachable state the FIFO lists exactly the terminated channels, each once, oldest first, at most the cap |
| `RelayTheorems.ChannelsAreWellFormed` | src/relay/channelManager.ts:234-261 | In every reachable state live channels per creator keep the cap, roles are unique, sequence numbers belong to participants and tombstones are bare |
| `RelayTheorems.ListenersMatchReservations` | src/relay/relayServer.ts:132-135 | In every reachable state a socket has an armed listener exactly if it has a reservation, and its only possible seat is the one its session names |
| `RelayTheorems.ForgottenObjectsAreEmpty` | src/relay/channelManager.ts:673-684 | An object that has left the map holds no participant and no message, whatever reservation still names it |
| `RelaySafety.RunKeepsInv` | src/relay/channelManager.ts:126-743 | After every run of events from the empty relay, under a monotone clock and with events falling into the await points of a join: all bytes are conserved, all three budgets hold, buffers hold at most 50 messages, roles are unique, the tombstone FIFO is exact, every accepted message has exactly one disposition, a listener is armed exactly for the sockets holding a reservation, and seats match sessions |
| `RelaySafety.StepKeepsInv` | src/relay/relayServer.ts:326-712 | One event, whatever it is, keeps that invariant |
| `RelaySafety.HandleTidy` | src/relay/relayServer.ts:151-216 | Listener map and reservations have the same keys after every handler, only live sockets have either, and every seat is the one its session names |
| `RelaySafety.OneChannelPerSocket` | src/relay/relayServer.ts:466-476 | A socket is a participant of at most one channel at every event boundary, await points included |
| `RelaySafety.DirectTargetArms` | src/relay/relayServer.ts:555-573 | A message routed directly always finds its target armable, so the transport-unavailable answer cannot occur |
| `RelayReservations.HandleAccounts` | src/relay/relayServer.ts:151-216 | No reservation is ever overwritten: under every event a socket's reservation stays as it is with its listener, goes together with its listener, or, only at the socket's own ready event, is replaced by the oldest message waiting for it on the same channel; a socket that gains one had none, could be armed, and is the target of a direct write |
| `RelayReservations.RunAccounts` | src/relay/relayServer.ts:151-216 | The same for every event of every run |
| `RelayReservations.OutstandingIsSame` | src/relay/channelManager.ts:536-583 | In every run an outstanding write that is never released stays the same write until the socket's own ready event |
| `RelaySafety.OnReadyOutcome` | src/relay/relayServer.ts:160-197 | A firing of the ready listener gives the reservation and the listener up if the socket is dead, waits on unchanged if its transport is not writable, and otherwise promotes under a new listener if a message waits and releases both if none does; arming cannot fail there, and no other socket's reservation changes |
| `RelaySafety.OnReadyTidy` | src/relay/relayServer.ts:160-197 | A firing of the ready listener keeps listeners and reservations in step |
| `RelaySafety.SeatTidy` | src/relay/relayServer.ts:441-476 | The synchronous middle of a join keeps listeners and reservations in step, and every seat where its session says |
| `RelaySafety.SeatKeepsReservations` | src/relay/channelManager.ts:243-257 | Joining, with the removal of a stale rival and the leaving of the previous channel, leaves every reservation and listener as it was |
| `RelaySafety.OnMessageTidy` | src/relay/relayServer.ts:515-587 | Routing, dropping a slow counterparty and arming keep listeners and reservations in step |
| `RelayAnswers.JoinAnsweredOnce` | src/relay/relayServer.ts:385-508 | Whatever other events fall in between, a join that has to enter the room gets exactly one answer if it asked for one, at the event that ends it: "unable" if and only if the room could not be entered or a room could not be left; otherwise what it deserved when it got in, its first fault, the tombstone, or the whole queue with the channel key and the counterparty, even when the answer waits for a room to be left; and with nothing against it the channel is then its current one |
| `RelayAnswers.JoinAnsweredAtOnce` | src/relay/relayServer.ts:385-444 | A request to join is told at once that another join is under way exactly when one is, that the relay is full exactly when it names an unknown channel and the live channels are at the cap, and what it deserves exactly when it renews its current channel; any other enters the room, and a request not taken up changes nothing |
| `RelayAnswers.JoinDeserves` | src/relay/channelManager.ts:160-313 | The result of a join is its first fault, or the bare tombstone report exactly on a faultless join of a tombstone, or else exactly everything that waited for the role, the bound key or the one just bound, and the other role if someone holds it |
| `RelayAnswers.AddressStays` | src/relay/relayServer.ts:326-358 | Over every run a socket's messages and channels are charged to the address it connected from |
| `RelayOutcomes.MessageAnswered` | src/relay/relayServer.ts:515-587 | A message is confirmed as unbuffered if and only if it was written to a counterparty that holds it as its outstanding write, which happens if and only if nothing is wrong with it, the counterparty can take a write and has none outstanding, and it fits beside everything held; confirmed as buffered if and only if it was faultless otherwise and is now last in the queue; refused with an error if and only if that is its first fault, and then no channel's messages changed; the counterparty is dropped exactly when only that or a budget stopped the write and it has none outstanding |
| `RouteFaults.RouteRefusedIff` | src/relay/channelManager.ts:400-519 | Routing reports an error if and only if it is the first fault of the message: unknown channel, tombstone, sender not seated, wrong role, repeated number, unserialisable, or a budget the bytes buffered and in flight would break even after the eviction |
| `RouteFaults.WritesNowIff` | src/relay/channelManager.ts:443-464 | A faultless message is written at once if and only if its counterparty can receive, has no write outstanding, and there is room beside all bytes buffered and in flight without any eviction |
| `RelayOutcomes.CloseAnswered` | src/relay/relayServer.ts:630-677 | A close is confirmed if and only if the socket sits in the live channel it means; then that channel is an empty tombstone dated now and last in the FIFO, no other channel ends, and it is no longer the current one; otherwise nothing changes |
| `RelayOutcomes.LeaveObeyed` | src/relay/relayServer.ts:592-621 | Leaving gives up the seat in the channel meant and no other seat, renews that channel's lease if there was one, and clears the current channel |
| `RelayOutcomes.DisconnectGivesUp` | src/relay/relayServer.ts:695-711 | A disconnected socket has no reservation, no listener and no seat left, except one taken in a join that has yet to leave its previous room; everyone else keeps theirs |
| `RelayOutcomes.DrainedWritesNext` | src/relay/relayServer.ts:160-216 | Once a write has drained and the transport is ready, the oldest message waiting for the socket on that channel is written under a new wait, or the socket is set free if none waits, it was unseated or it is gone; while the transport is not writable nothing changes, nor before it has drained |
| `ManagerOutcomes.JoinSeats` | src/relay/channelManager.ts:229-298 | A join that succeeds seats the socket in place of whoever held the role, keeps everyone else and their numbers, renews the lease, and charges a new channel to its creator |
| `ManagerOutcomes.CloseBuries` | src/relay/channelManager.ts:336-375 | Closing makes exactly a live channel an empty, keyless tombstone dated now, the newest in the FIFO, and ends no other; closing anything else changes nothing |
| `ManagerOutcomes.DesertedChannelLives` | src/relay/channelManager.ts:380-392 | A channel whose last participant has left is forgotten by the first sweep more than the channel lifetime later and by none before, and loses only expired messages |
| `RelayOrder.RunOrdered` | src/relay/relayServer.ts:160-197 | Over every run in which no socket is seated while its write on another object is outstanding: no live participant without a write has a message waiting, and no queue is reordered |
| `RelayOrder.StepOrderedIff` | src/relay/relayServer.ts:466-476 | Each event keeps that invariant if and only if it does not seat a live socket whose write on another channel object is outstanding; whether the join seats is read off its key, the roles, the live rivals, the cap and the tombstones |
| `RelayOrder.PromptNeverPasses` | src/relay/channelManager.ts:443-471 | Where nothing waits for an idle live participant, no message is written past a waiting one |
| `RelayWire.RunHandoverIff` | src/relay/relayServer.ts:441-497 | Over every run, each role's queue and what sockets were sent of it are in order in every state if and only if no event overtakes: none writes a message directly while another one is buffered for the role, and none gives an owed join answer after something newer was sent |
| `RelayWire.StepHandoverIff` | src/relay/relayServer.ts:441-497 | The same for one event, judged by the state before it |
| `RelayWire.HandoverInOrder` | src/relay/channelManager.ts:443-583 | In a run without overtaking the messages of a role leave every channel object in the order they were accepted, the rest being the tail still buffered, and what sockets received, writes, promotions and join answers together, is what was accepted minus some, in order |
| `RelayWire.RunUnpassedIff` | src/relay/relayServer.ts:466-497 | Over every run nothing waits for an idle live participant and nothing was sent past an answer still owed, if and only if no event seats a foreign writer or sends anything while an answer with older messages of the lane is owed |
| `RelayWire.StepUnpassedIff` | src/relay/relayServer.ts:466-497 | The same for one event |
| `RelayWire.OvertakingNeedsSlip` | src/relay/relayServer.ts:466-497 | A run can overtake only after such an event |
| `RelayWire.ForeignFreeHandoverIff` | src/relay/relayServer.ts:474-497 | Without foreign seats a run is in order throughout if and only if no owed answer is given late |
| `Traces.LateAnswerReorders` | src/relay/relayServer.ts:466-497 | A concrete run of eleven events without a foreign seat after which a client has received a later message before the earlier one in the answer to its join |
| `Traces.SilentJoinLosesBatch` | src/relay/relayServer.ts:74-79 | A concrete run of seven events in which a live socket joins without asking for an acknowledgement and the message that waited for it is lost |
| `RelayFates.LostIff` | src/relay/relayServer.ts:466-508 | Over every run the messages a join withdrew are lost if and only if the client asked for no acknowledgement, or the socket was gone when it was seated, or the previous room could not be left, or the socket was gone when the answer was due; they have reached the client if and only if some event sent them, and otherwise the answer is still owed |
| `RelayFates.StandingsAreFinal` | src/relay/relayServer.ts:466-508 | Whatever was handed over keeps its messages, and once sent or lost it stays so |
| `RelayFates.HandedOverOnce` | src/relay/channelManager.ts:288-583 | In every reachable state an accepted message is buffered or settled, once, and a settled one is in exactly one parcel if it was written, promoted or returned by a join, and in none if it was discarded |
| `RelayFates.RunKeepsMail` | src/relay/relayServer.ts:441-508 | In every reachable state parcels are disjoint stretches of the settlement logs in the order of the logs, every message handed over is in one, and an answer is owed exactly for the parcels that wait, listing exactly their messages |
| `RelayFates.JoinAnswerCarriesBatch` | src/relay/relayServer.ts:439-497 | The answer a join gives in the turn that seats it carries exactly the messages the channel settled; a switching join gives none yet and owes it |
| `RelayFates.OwedAnswerCarriesBatch` | src/relay/relayServer.ts:474-508 | The answer given once the previous room is left carries exactly the parcel that waited for it; when leaving fails the parcel is lost |
| `RelayMail.HandlePosts` | src/relay/relayServer.ts:160-508 | Every event hands over, resolves and discards exactly what is read off the state before it: one direct write, one promotion, the batch of a join, or an owed answer |
| `RelayOrder.SeatOrderedIff` | src/relay/relayServer.ts:441-476 | The exact condition for the join itself |
| `RelayOrder.OnReadyOrdered` | src/relay/relayServer.ts:160-197 | The drain loop never leaves a live seated socket idle with something waiting, and promotes in order |
| `RelayOrder.SeatedMessageOrdered` | src/relay/relayServer.ts:549-587 | A message is written directly only when nothing waits for its role; a counterparty that can take no write and has none outstanding is dropped |
| `Traces.SwitchingReorders` | src/relay/relayServer.ts:466-476 | A concrete run of fifteen events, one switch with a write outstanding, after which a later message has been written and an earlier one still waits: the hypothesis is needed |
| `ManagerOrder.RouteKeepsOrderIff` | src/relay/channelManager.ts:427-471 | Routing keeps every queue in order if and only if it does not write past another message that waits for the role |
| `ManagerOrder.ApplyAllKeepsOrder` | src/relay/channelManager.ts:160-691 | No sequence of the other operations, in any state, reorders a queue |
| `DeliveryOrder.DirectKeepsOrderIff` | src/relay/channelManager.ts:443-464 | A direct write keeps a role's queue in order if and only if no other message is buffered for that role |
| `DeliveryOrder.WithdrawKeepsOrder` | src/relay/channelManager.ts:288-299 | Taking the front of one role's queue out of the shared buffer keeps both roles in order |
| `DeliveryOrder.AppendKeepsOrder` | src/relay/channelManager.ts:521-529 | Buffering keeps both roles' queues in order |
| `ManagerOrder.AdvanceKeepsOrder` | src/relay/channelManager.ts:556-583 | Promotion takes the oldest message of the role, so order is kept |
| `ManagerOrder.CleanupKeepsOrder` | src/relay/channelManager.ts:655-691 | Expiry removes a prefix of each queue, because buffers are ordered by time |
| `ManagerOrder.JoinKeepsOrder` | src/relay/channelManager.ts:284-299 | A join hands over a whole queue in order |
| `RelayHistory.RunAges` | src/relay/channelManager.ts:102-115 | Between any two states of a run every channel object only ages: histories are extended, a bound key stays unless the channel is terminated, a terminated object never changes but for draining in-flight bytes |
| `RelayHistory.DispositionIsFinal` | src/relay/channelManager.ts:288-533 | Exactly-once disposition over runs: accepted messages are the settled ones plus the buffered ones as multisets, and what was settled stays settled the same way; whether a returned message reached its client is stated by `RelayFates.LostIff` |
| `RelayHistory.TerminatedForever` | src/relay/channelManager.ts:346-360 | A terminated channel object never regains participants, messages, key or routing |
| `RelayHistory.LaterJoinsShareKey` | src/relay/channelManager.ts:229-276 | Once an object carries a key, every dApp that later joins it presented that key and every joiner is told it |
| `RelayHistory.JoinBindsKey` | src/relay/channelManager.ts:262-276 | A successful join binds the presented key exactly when none was bound |
| `RelayHistory.AcceptedStrictlyIncrease` | src/relay/channelManager.ts:427-436 | During one unbroken membership, across all other events, the accepted sequence numbers of a sender strictly increase |
| `RelayHistory.RecordNeverFalls` | src/relay/channelManager.ts:380-394 | While a socket keeps its seat its recorded sequence number never falls, also through rejoining and stale-participant removal |
| `RelayHistory.AcceptedExceedsRecorded` | src/relay/channelManager.ts:427-468 | An accepted number exceeds the recorded one and replaces it, leaving other senders' numbers |
| `RelayHistory.RejectedRouteOnlyTouches` | src/relay/channelManager.ts:400-533 | A rejected message changes nothing but lastActivity |
| `RelayHistory.FailedSeatKeepsMembership` | src/relay/relayServer.ts:441-462 | A refused or tombstoned join leaves the socket's seats and current channel as they were |
| `ManagerAging.ApplyAges` | src/relay/channelManager.ts:160-691 | The aging law for each operation of the manager |
| `RelaySteps.HandleOps` | src/relay/relayServer.ts:385-712 | Every relay event moves the manager by a sequence of its public operations, at most the first of them a join |
| `ManagerOps.JoinKeepsSound` | src/relay/channelManager.ts:160-318 | A join keeps every manager invariant, and the channel-full refusal cannot occur |
| `ManagerOps.RefusedJoinAllocatesNothing` | src/relay/channelManager.ts:167-232 | No refused join allocates a channel |
| `ManagerOps.AllocateKeepsCap` | src/relay/channelManager.ts:206-226 | Live channels per creator address never exceed the cap |
| `ManagerOps.CloseKeepsSound` | src/relay/channelManager.ts:336-374 | A close succeeds exactly on a live channel and lists its tombstone last; over the cap it forgets exactly the oldest tombstone |
| `ManagerOps.EvictKeeps` | src/relay/channelManager.ts:364-372 | Eviction restores the cap by forgetting the oldest tombstone and nothing else |
| `ManagerOps.UnmapKeeps` | src/relay/channelManager.ts:366-370 | Forgetting an empty channel leaks no participant, message or byte |
| `ManagerOps.LeaveKeepsSound` | src/relay/channelManager.ts:380-394 | Leaving keeps every manager invariant |
| `ManagerRouting.RouteKeepsSound` | src/relay/channelManager.ts:400-533 | Routing keeps every manager invariant, all budgets included |
| `ManagerRouting.EvictionMakesRoom` | src/relay/channelManager.ts:485-519 | The prospective budget check with the oldest message discounted holds exactly when the message fits after the eviction |
| `ManagerRouting.PromoteKeepsBody` | src/relay/channelManager.ts:573-581 | Moving a message from the buffer to the reservation breaks no budget |
| `ManagerRouting.CounterpartTakesOtherRole` | src/relay/channelManager.ts:443-450 | The counterparty found by the scan is the only other participant and holds the role buffered messages are addressed to |
| `ManagerRouting.ForgottenChannelsAreEmpty` | src/relay/channelManager.ts:658-684 | Under a monotone clock a channel old enough to be deleted has outlived every message it could hold |
| `ManagerRouting.CleanupKeepsSound` | src/relay/channelManager.ts:655-691 | The sweep keeps every manager invariant in whatever order it visits the channels |
| `ManagerRouting.AdvanceKeepsSound` | src/relay/channelManager.ts:556-583 | Promotion keeps every manager invariant |
| `ManagerRouting.ReleaseKeepsSound` | src/relay/channelManager.ts:536-549 | Releasing a reservation keeps every manager invariant, also when its channel has left the map |
| `ManagerCleanup.CleanupExact` | src/relay/channelManager.ts:658-684 | After a full sweep a channel is mapped exactly if it was not past its lifetime, as it was but for its messages, of which exactly those younger than the buffer lifetime remain |
| `ManagerCleanup.CleanupForgetsPrefix` | src/relay/channelManager.ts:673-690 | The sweep removes from the tombstone FIFO a prefix: exactly the tombstones past their lifetime |
| `ManagerAnswers.JoinAnswers` | src/relay/channelManager.ts:284-318 | A join returns, and settles, exactly the messages that waited for the role, in order; the roster names every other participant |
| `ManagerAnswers.RouteAnswers` | src/relay/channelManager.ts:452-533 | An accepted message enters the history once, addressed to the other role, and is written, or queued behind the eviction of the oldest over the count cap |
| `ManagerAnswers.WritesDirectlyIff` | src/relay/channelManager.ts:400-471 | A message is written at once if and only if its sender, role, number and size are valid, a receivable counterparty without outstanding write exists and all budgets allow it; it then goes to the holder of the other role |
| `ManagerAnswers.JoinRefusedIff` | src/relay/channelManager.ts:160-282 | A join is refused with an error if and only if that is the first fault it has: malformed key, creator cap, key required, role change, live rival, key mismatch |
| `ManagerAnswers.JoinSucceedsIff` | src/relay/channelManager.ts:160-318 | A join is seated if and only if it has no fault and meets no tombstone; a tombstone is reported if and only if there is one and the key is not malformed |
| `ManagerAnswers.BudgetRefusalIsExact` | src/relay/channelManager.ts:485-519 | A message is refused for a budget if and only if it would not fit after the eviction its arrival causes |
| `ManagerAnswers.AdvanceAnswers` | src/relay/channelManager.ts:556-583 | A promotion writes the oldest message waiting for the role, settles it and charges its size and source address to the reservation |
| `ManagerAnswers.LeaveAnswers` | src/relay/channelManager.ts:380-394 | Leaving reports the role exactly if the socket was seated, removes its seat and sequence number, renews the channel's lease, and otherwise changes nothing |
| `Conservation.ReleaseConserves` | src/relay/channelManager.ts:536-549 | Releasing subtracts exactly the reserved bytes from the object, the total and the address: the clamps never act |
| `Conservation.ReserveConserves` | src/relay/channelManager.ts:462-466 | Reserving keeps every ledger equal to its sum |
| `Conservation.WithdrawConserves` | src/relay/channelManager.ts:604-618 | Withdrawing messages subtracts exactly their bytes everywhere |
| `Conservation.AppendConserves` | src/relay/channelManager.ts:598-612 | Buffering adds exactly the message's bytes everywhere |
| `Conservation.IpEntryIffCharged` | src/relay/channelManager.ts:614-618 | An address has a ledger entry exactly when it is charged for a byte |
| `Ledgers.ReleaseEachExact` | src/relay/channelManager.ts:604-618 | While the ledger covers a batch, releasing it message by message subtracts its exact sums and clamps nothing |
| `Ledgers.BytesSplit` | src/relay/channelManager.ts:598-608 | Byte sums depend only on which messages there are |
| `ChannelManagers.ChannelManager.Join` | src/relay/channelManager.ts:160-318 | The new abstract state and the answer are the join transition's; every invariant is kept |
| `ChannelManagers.ChannelManager.Close` | src/relay/channelManager.ts:336-374 | Likewise for close, with its eviction loop |
| `ChannelManagers.ChannelManager.Leave` | src/relay/channelManager.ts:380-394 | Likewise for leave |
| `ChannelManagers.ChannelManager.RouteMessage` | src/relay/channelManager.ts:400-533 | Likewise for routing |
| `ChannelManagers.ChannelManager.ReleaseDelivery` | src/relay/channelManager.ts:536-549 | Likewise for releasing a reservation |
| `ChannelManagers.ChannelManager.AdvanceDirectDelivery` | src/relay/channelManager.ts:556-583 | Likewise for promotion |
| `ChannelManagers.ChannelManager.Cleanup` | src/relay/channelManager.ts:655-691 | Likewise for the sweep; it reports an order that covers every channel |
| `ChannelManagers.ChannelManager.PartitionBuffer` | src/relay/channelManager.ts:284-299 | One pass splits a buffer into what a sieve takes and leaves, both in order, releasing exactly what it takes |
| `ChannelManagers.ChannelManager.EvictExcess` | src/relay/channelManager.ts:364-372 | The eviction loop computes the eviction transition |
| `ChannelManagers.ChannelManager.CountLiveChannelsCreatedBy` | src/relay/channelManager.ts:320-326 | The scan counts the live channels of one creator |
| `ChannelManagers.ChannelManager.GetActiveChannelCount` | src/relay/channelManager.ts:720-726 | The scan counts the channels that are not tombstones |
| `Channels.FindRival` | src/relay/channelManager.ts:243-257 | The scan finds the only other holder of the role, whatever the iteration order |
| `Channels.FindCounterpart` | src/relay/channelManager.ts:443-450 | The scan finds the only other participant |
| `Channels.Roster` | src/relay/channelManager.ts:301-309 | The loop collects the roles of the others |
| `Channels.FindNext` | src/relay/channelManager.ts:565-568 | The scan finds the oldest message for a role, or none |
| `Channels.KeepMapped` | src/relay/channelManager.ts:686-690 | The filter keeps the mapped ids in order |
| `RelayServers.RelayServer.Serve` | src/relay/relayServer.ts:326-712 | Serving an event is one step of the abstract relay and keeps every invariant |
| `RelayServers.RelayServer.Seat` | src/relay/relayServer.ts:439-497 | The synchronous middle of a join computes its transition and gives the answer, with the returned messages, key, roster and tombstone flag, unless a room has to be left first |
| `RelayServers.RelayServer.OnJoin` | src/relay/relayServer.ts:385-440 | The first part of the join handler computes its transition and the answers given in that turn |
| `RelayServers.RelayServer.OnRoomEntered` | src/relay/relayServer.ts:436-509 | The code after entering the room, or after that failed, computes its transition and answer |
| `RelayServers.RelayServer.OnMessage` | src/relay/relayServer.ts:515-587 | The message handler computes its transition and acknowledgement |
| `RelayServers.RelayServer.OnReady` | src/relay/relayServer.ts:160-197 | The ready listener computes its transition |
| `RelayServers.RelayServer.Disconnect` | src/relay/relayServer.ts:695-712 | The disconnect handler computes its transition |
| `RelayServers.RelayServer.OnClose` | src/relay/relayServer.ts:630-677 | The close handler computes its transition; it confirms only a participant's close of a live channel |
| `RelayServers.RelayServer.OnLeave` | src/relay/relayServer.ts:592-622 | The leave handler computes its transition |
| `RelayServers.RelayServer.OnRoomLeft` | src/relay/relayServer.ts:474-508 | The code after leaving a room, or after that failed, computes its transition and gives the answer that was owed or the failure |
| `RateLimits.AtMostTwiceTheLimit` | src/relay/relayServer.ts:273-291 | In every monotone trace of requests and sweeps, any span of one window length has at most twice the limit of allowed requests per address and bucket |
| `RateLimits.TwiceTheLimitIsReached` | src/relay/relayServer.ts:280-291 | That bound is reached, by bursts at the end of a window opened by another bucket and just after it |
| `RateLimits.DecisionFromHistory` | src/relay/relayServer.ts:280-291 | A request is refused if and only if its address already made the limit of requests in a window still open; the table agrees with the history |
| `RateLimits.SweepsChangeNothing` | src/relay/relayServer.ts:316-324 | Deleting expired entries at any times changes no decision |
| `RateLimits.RateLimiter.CheckRateLimit` | src/relay/relayServer.ts:273-291 | The method computes the check on the table |
| `RateLimits.RateLimiter.SweepExpired` | src/relay/relayServer.ts:316-324 | The loop deletes exactly the expired entries |
| `Health.RecordCounts` | src/services/rpc/healthMonitor.ts:381-480 | After every poll trace the counters are the trailing success and failure runs, the height and head are those of the last success, the change time is the last strict rise, and the verified identity is the pin exactly if the last poll succeeded |
| `Health.VerdictIff` | src/services/rpc/healthMonitor.ts:284-371 | A poll succeeds if and only if it showed a height, a syncing flag and a head time within the safe integers, and on a pinned network the pinned chain id and genesis hash; its evidence is what was shown |
| `Health.StateFollowsPolls` | src/services/rpc/healthMonitor.ts:381-500 | Every move of the state is read off the polls: a failure leads down exactly at the threshold of its run, a stale success stalls, a rise leads up unless a time down has not yet been followed by enough successes, and any other success only settles the unknown state or an earned recovery |
| `Health.RecordLatency` | src/services/rpc/healthMonitor.ts:256-277 | After every poll trace the latency is that of the last poll that got any response, of all of it if it succeeded and up to that response if not |
| `Health.StateMeaning` | src/services/rpc/healthMonitor.ts:402-471 | After every poll trace: enough failures mean down, down means fewer trailing successes than the threshold, unknown means exactly no success and too few polls to be down, stalled means the last success came too long after the last rise |
| `Health.DownExactlyAtThreshold` | src/services/rpc/healthMonitor.ts:467-471 | An endpoint goes down if and only if its failure run reaches the threshold with this poll |
| `Health.UpFromDownExactlyAtThreshold` | src/services/rpc/healthMonitor.ts:410-432 | A poll moves an endpoint from down to up if and only if it succeeds, is not stale, and completes a success run of exactly the threshold |
| `Health.RecoversIff` | src/services/rpc/healthMonitor.ts:402-471 | Over every poll trace an endpoint that is down comes up again if and only if a poll that is not stale ends a full success run, or the height rises after a stale success with too few failures in between to go down |
| `Health.ShortRecoveryIff` | src/services/rpc/healthMonitor.ts:402-471 | Where no success run reaches the threshold, it comes up again if and only if the height rises after such a stale success |
| `Health.RecoveryNeedsFullRun` | src/services/rpc/healthMonitor.ts:410-432 | Without a rise after a stale success an endpoint that was down is up again only after a full success run |
| `Health.StallShortensRecovery` | src/services/rpc/healthMonitor.ts:410-426 | A concrete trace that stalls on the way and is up after two successes where three are asked for |
| `Health.NeverUnknownAgain` | src/services/rpc/healthMonitor.ts:406-434 | No endpoint returns to unknown |
| `HealthMonitors.EndpointRecord.ApplySuccess` | src/services/rpc/healthMonitor.ts:381-433 | The in-place update computes the success transition |
| `HealthMonitors.EndpointRecord.ApplyFailed` | src/services/rpc/healthMonitor.ts:457-471 | The in-place update computes the failure transition |
| `HealthMonitors.EndpointRecord.Poll` | src/services/rpc/healthMonitor.ts:253-379 | The end of a poll computes the poll transition |
| `HealthMonitors.HealthMonitor.PollEndpoint` | src/services/rpc/healthMonitor.ts:253-379 | A poll extends the trace of one endpoint; every record stays what its trace says |
| `HealthMonitors.HealthMonitor.ReadyEndpointsForAttempt` | src/services/rpc/healthMonitor.ts:196-216 | The offer is the readiness function of the records of all traces |
| `Routing.ReadyExactly` | src/services/rpc/healthMonitor.ts:196-216 | A URL is offered if and only if some record with it is eligible and within the lag of every eligible record |
| `Routing.SomethingIsReady` | src/services/rpc/healthMonitor.ts:196-216 | Something is offered if and only if some record is eligible |
| `Routing.ReadyIsRanked` | src/services/rpc/healthMonitor.ts:196-216 | With distinct URLs the offer is the stable latency ranking of exactly the serving records |
| `Routing.OfferedIffProven` | src/services/rpc/healthMonitor.ts:178-216 | Over every poll history a URL is offered if and only if an endpoint with it is up, its last successful poll is recent and showed a synchronised head of recent date, on a pinned network is the last poll of all and named the pinned chain id and genesis, and no such endpoint showed a height more than the lag above |
| `Routing.OfferedFastestFirst` | src/services/rpc/healthMonitor.ts:154-168 | Over every poll history the latency last measured of an endpoint offered earlier is no larger |
| `Routing.SortRanks` | src/services/rpc/healthMonitor.ts:154-168 | Endpoints that are up come first, then unknown, stalled and down ones, and within a state smaller latencies first, unmeasured ones last |
| `Routing.SortStable` | src/services/rpc/healthMonitor.ts:154-168 | Endpoints that rank alike keep their configured order |
| `Routing.FilterSort` | src/services/rpc/healthMonitor.ts:210-215 | Filtering the ranking is ranking the filtered |
| `GatewayCooldown.RunTripsLikeReference` | src/routes/ipfs.routes.ts:32-51 | Over every interleaving of answers the lazily pruned map trips if and only if enough distinct roots failed within the window since the last trip |
| `GatewayCooldown.RunTracks` | src/routes/ipfs.routes.ts:32-51 | The map stays below the threshold size and holds exactly the recent failures of the whole-history reference |
| `GatewayCooldown.ObserveRefines` | src/routes/ipfs.routes.ts:32-51 | One failure: same decision as the reference, and still tracking it |
| `GatewayCooldown.RootKeyIdentifies` | src/routes/ipfs.routes.ts:44-45 | Two CIDs are one root exactly when equal, or both base32 and equal up to letter case |
| `GatewayCooldown.CooldownMoves` | src/routes/ipfs.routes.ts:262-270 | A cooldown is never shortened, never passes now plus the larger of its remainder and the cap, and honours a Retry-After in seconds up to the cap |
| `GatewayCooldown.CooldownEnds` | src/routes/ipfs.routes.ts:262-270 | Once answers stop, a gateway is eligible again within the cap |
| `GatewayCooldown.EligibleIffRested` | src/routes/ipfs.routes.ts:217-270 | Over every run of answers a gateway may be tried if and only if every rest is over: thirty seconds from each 502, 503 or 504 that brought enough distinct roots within the window, and from each 429 what its header asked for in seconds or as a date, up to the cap, or a minute if it said nothing readable; no other answer imposes one |
| `GatewayCooldown.TripRests` | src/routes/ipfs.routes.ts:217-270 | After such a trip the gateway is not tried for thirty seconds, whatever it answers meanwhile |
| `GatewayCooldown.GatewayState.ShouldCoolDownForServerError` | src/routes/ipfs.routes.ts:32-51 | The method with its pruning loop computes the observation |
| `GatewayCooldown.GatewayState.NoteAnswer` | src/routes/ipfs.routes.ts:253-270 | The method computes the gateway's reaction to a status |
| `GatewayFallback.PreferredIsEarliestBest` | src/routes/ipfs.routes.ts:63-73 | The fold reports the earliest failure of maximal priority |
| `GatewayFallback.BusyIffAllSkipped` | src/routes/ipfs.routes.ts:209-222 | 503, and with it a Retry-After, is the answer if and only if every gateway was skipped before the deadline, for a client still there |
| `GatewayFallback.ReplyTellsWorst` | src/routes/ipfs.routes.ts:209-323 | The reply in every case, by statuses: silence for a client that left, the content, a cut-off stream, 504 past the deadline, the first upstream status that is neither 429 nor a server error as 404 or 502, and else 504 for any timeout, 502 naming the first server error, 502 for an unreachable gateway, 502 naming 429, and 503 only when every gateway rested |
| `GatewayFallback.WindowIsLongest` | src/routes/ipfs.routes.ts:231-239 | An attempt's window is the longest within the deadline that leaves each later gateway its reserve, or the minimum |
| `GatewayFallback.EveryEligibleGatewayGetsMinimum` | src/routes/ipfs.routes.ts:211-239 | Over the visits of a request with steady eligibility and an ample budget, every gateway not cooling down is tried, with at least the minimum window; the later gateways are those counted at that moment |
| `GatewayFallback.CountLater` | src/routes/ipfs.routes.ts:222-225 | The filter counts the later gateways that are not cooling down |
| `GatewayFallback.Fetch` | src/routes/ipfs.routes.ts:209-319 | The loop's answer is the one read off the first stopping visit and the failures before it, deadline and disconnection overriding; its timers are the windows |
| `GatewayFallback.WindowsFitDeadline` | src/routes/ipfs.routes.ts:231-239 | Windows of successive attempts that run out never sum past the deadline |
| `GatewayFallback.EveryAttemptGetsMinimumIff` | src/routes/ipfs.routes.ts:223-239 | Every one of k eligible gateways gets the minimum window in every run of prompt attempts if and only if the budget is at least k minimums and, for more than one gateway, the reserve is at least one |
| `GatewayFallback.RetryAfterIsTight` | src/routes/ipfs.routes.ts:320-323 | After the announced wait some gateway has cooled down, and a second less would not do |
| `Slots.RunExact` | src/services/rpc.service.ts:58-90 | After any interleaving of acquisitions and releases, repeated ones included, the counters are exactly those of the slots held and within every cap |
| `Slots.AcquireKeepsExact` | src/services/rpc.service.ts:58-77 | Admission decides exactly as the slots held would |
| `Slots.ReleaseKeepsExact` | src/services/rpc.service.ts:79-89 | Giving a slot back keeps the counters exact; no subtraction is clamped |
| `Slots.SlotPool.Acquire` | src/services/rpc.service.ts:58-77 | The method grants exactly when the slots held leave room |
| `Slots.SlotPool.Release` | src/services/rpc.service.ts:79-89 | The closure gives its slot back once; later calls change nothing |
| `RpcService.CacheKeyInjective` | src/services/rpc.service.ts:189-192 | Two cacheable requests share a key only if network, pinned identity, method and serialised parameters agree |
| `RpcService.CachedIsGenuine` | src/services/rpc.service.ts:194-236 | Whatever is cached for a query is the result of an earlier error-free reply to that very query, under any interleaving and forgetting |
| `RpcService.RpcProxy.Begin` | src/services/rpc.service.ts:182-207 | Nothing is served when nothing is ready; a cached result is served exactly when there is one, genuine and under the caller's id; otherwise the attempt order is given, or 503 if it is empty |
| `RpcService.RpcProxy.Finish` | src/services/rpc.service.ts:209-237 | The reply is the failover decision; only an error-free result of an invariant method is cached |
| `RpcService.Failover` | src/services/rpc.service.ts:212-232 | Endpoints are tried in order until the first reply or admission refusal, and none after it |
| `RpcService.AttemptsAreReady` | src/services/rpc.service.ts:204-207 | txpool_, debug_ and admin_ methods go to the configured primary alone, if it is ready; any other method to the best ready endpoint and then the second best |
| `RpcService.DecisionIs` | src/services/rpc.service.ts:209-232 | The client is told what the first endpoint that did not fail replied, a refusal with its own status, and 502 when all failed |
| `RpcService.CachedExactly` | src/services/rpc.service.ts:194-236 | Exactly an error-free result of qrl_chainId or net_version is stored, under the key of that very query |

## Left out

- Socket.IO, Engine.IO, Express, fetch, timers, metrics and logging: environment steps, parameters, or not modelled. A transport upgrade that replaces the transport object under an armed listener is not modelled.
- The relay's rate limiter and per-address socket counters in front of the handlers: the limiter is modelled on its own, not composed with the relay; a rejected event is simply absent from a run.
- Wire validation of channel ids, client types, sequence numbers and message sizes (`src/relay/relayServer.ts:93-100`, `src/relay/relayServer.ts:525-548`): a run contains only events that passed it.
- Presence notifications (`participants_changed`) and the texts of errors: the answers to clients are modelled, what is broadcast to rooms is not.
- `joinedAt`, statistics and `getChannelInfo` beyond whether a channel exists: nothing depends on them.
- `destroy()`: it ends the run; it zeroes the ledgers without emptying the channels.
- An exact bound on active channels: the check and the creation are separated by an await, so the code does not keep one; only the per-creator cap is stated.
- RelayFates.LostIff: a parcel counts as having reached its client once it is given to the acknowledgement or the transport of a socket that is alive at that moment; what the transport then does with it is not modelled.
- RelaySafety.RunKeepsInv: does not say that every participant is a connected socket, because a disconnect inside the await of a join leaves a seat behind.
- RelayHistory.FailedSeatKeepsMembership: speaks of the joining socket only; a refused join may still have removed a stale participant before the key comparison failed.
- RelayHistory.LaterJoinsShareKey: is about one channel object; once its tombstone is forgotten the same id may name a new object with another key.
- Base64 and JSON serialisation: a key's canonical form and a payload's size are inputs. The cache key is injective in the serialised parameters.
- HealthMonitors.EndpointRecord.Poll: one step from the start of a poll to its end; a reader between the awaits of one poll, who may see the latency of its first response, is not modelled.
- Routing.ReadyIsRanked: needs distinct URLs, because the code filters by URL; `Routing.ReadyExactly` covers duplicates.
- Hexadecimal parsing of heights, timestamps and chain ids: a reply carries the parsed value or none.
- Health notifications, error texts and `lastPollAt`: reporting only.
- IPFS body streaming, size limits, media types, CID and path patterns: an attempt ends delivered, with a status, or broken.
- GatewayFallback.BusyIffAllSkipped: like Fetch it needs at least one gateway, which the configuration guarantees (`src/config/index.ts:73-117`).
- GatewayFallback.Fetch: needs at least one gateway, and treats the deadline timer and the deadline clock as one; timers that fire late are covered, a timer that fires early is not.
- Retry-After parsing: a header is given as seconds, a date or neither.
- `qrl_getLogs` validation, QIP-55 checks, CORS, configuration parsing and log redaction: easier than the above.
