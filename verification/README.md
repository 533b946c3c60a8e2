# A verified model of the Photon payment-channel node

A Photon node keeps one copy of every payment channel it takes part in, changes that copy with signed messages that
travel over an unreliable network, and follows the contract through logs that it polls from the chain. This project
models those parts in Dafny and proves what they promise together. `dafny verify dfyconfig.toml` checks everything.

| file | part of the node |
|---|---|
| `Primitives`, `Merkle`, `Messages` | hashes, locks, the lock tree, balance-proof messages and errors |
| `EndStates`, `Channels` | one side and the whole channel as values: what every message, secret, chain event and request does |
| `EndObjects`, `ChannelObjects` | the mutable `EndState` and `Channel` objects, proved equal to those values step by step |
| `ChannelLaws`, `Acceptance`, `Solvency`, `ChannelRuns`, `ClosedChannels`, `Timelocks` | what is accepted and recorded, and what every step and every run of one channel keeps |
| `Ledgers`, `Lockstep`, `Builders`, `Cooperation` | two copies of one channel that exchange messages in order |
| `Transport`, `NetworkedChannel` | the stop-and-wait transport over a lossy, duplicating, reordering network, and the two copies on top of it |
| `EventPump`, `PumpDelivery`, `PumpOrder`, `PumpClock`, `PumpedChannel` | the polling loop: what it delivers, when, and what that means for locks |
| `Persistence`, `HashIndex`, `UnlockLoop`, `TokenSwaps` | saving and loading, the hash index and restart, on-chain unlocking, token swaps |
| `ByteCodec`, `Wire` | integers as bytes and the packet format |

Conventions. Keccak and SHA-256 are injective: a digest is a term that says what was hashed, and a pair of digests is
unordered because the tree sorts a pair before hashing it. A message carries its sender; recovering it from a signature
is not modelled. `OnChainEvent` and `OnRequest` give `None` where the source panics. A run (`IsRun`) starts from a newly
opened channel and takes any messages, secrets, events and requests in any order, unless a lemma says otherwise.

## Where the code and its documentation disagree

- A mediated transfer must not change the transferred amount (`channel/channel.go:581`, `channel/ChannelEndState.go:336`).
  The code only refuses a decrease. `MediatedMayOverdraw` gives, for every new channel, an accepted message that
  overdraws its sender; `RunSolventIff` gives the exact condition for whole runs.
- A refused message should leave no trace. A removal stores the shortened tree before its last check.
  `RejectionIsAtomicIff` and `TransferConsistentIff` state exactly when a refusal changes the channel;
  `LateDisposeBreaksTree` shows it on a family of settling channels; `EndRoundTripIff` shows that a reload then loses
  the lock.
- No log should be lost. An event identifier keeps one byte of the log's position in its block; the source assumes that a
  transaction has at most 256 logs (`blockchain/events.go:58`), and then identifiers are distinct
  (`SmallTransactionsUnrivalled`). Of two logs of one transaction 256 positions apart the second is lost (`TwinIsLost`);
  `DeliveredOnceIff` says exactly which log of an identifier is delivered. With fork confirmation on, one jump of the head over `FORK_CONFIRM + 2` blocks or more loses a
  held-back log (`JumpLosesLog`); up to `FORK_CONFIRM + 1` blocks none is lost (`ConfirmedDelivery`).
- A secret registered by a lock's expiration should keep the lock. With fork confirmation on this needs one step of the
  head more (`InTimeRevealPreventsRemoval`), and exactly that (`NoticeIsOvertaken`, `OvertakenRemovalIff`).
- `removeToken2LockSecretHash2channel` throws the shortened slice away, so stale entries may stay (`CutLeavesStaleIff`),
  but no other channel is lost (`CutKeepsOthers`). Where a channel uses one hash in both directions, the release of one
  lock may hide the other (`TwoWayLosesCover`); `StepKeepsCoverIff` and `RunCoversIff` say exactly when.
- A closed channel should stay closed until it is settled. The order for a cooperative settlement does not look at the
  state, and takes a closed channel without locks out of it (`CooperationForgetsClose`); `RunClosedIff` says exactly when a
  channel is closed.
- The builders of settle and withdraw requests test one lock map twice and forget another; `SettleHandshakeIff` and
  `WithdrawHandshakeIff` state exactly when the partner still accepts.
- The maker of a token swap should keep its secret until the taker has paid. The guard is armed only by a transfer of
  exactly the swap's amount, so not when a fee is added (`FeeLeavesGateOpen`); `RequestThroughIff` gives the exact condition
  over all runs.
- A 32-byte integer loses its sign (`BigIntRoundTripIff`), and a lock's expiration in a packet may come out negative
  (`Readable`).

## Model

| member | source | states |
|---|---|---|
| Merkle.PairUp | transfer/mtree/mtree.go:139-172 | one pass over a layer yields exactly the next layer, the odd element carried over |
| Merkle.BuildLayers | transfer/mtree/mtree.go:139-172 | the loop builds all layers up to the root |
| Merkle.NewMerkleTree | transfer/mtree/mtree.go:110-128 | the tree keeps its leaves and its layers are those of their hashes |
| Merkle.RootOfTree | transfer/mtree/mtree.go:177-187 | the stored root is the root of the leaves, the empty hash for no leaves |
| Merkle.MakeProof | transfer/mtree/mtree.go:194-214 | the proof made for any leaf verifies against the root, for every tree size |
| Merkle.SiblingsReachRoot | transfer/mtree/mtree.go:194-214 | every element of every layer climbs to the root along its siblings |
| Merkle.ProvableIffLeaf | transfer/mtree/mtree.go:314-320 | some proof of a lock verifies against a root if and only if the lock is a leaf: no proof can be forged |
| Merkle.RootDeterminesLocks | transfer/mtree/mtree.go:177-187 | trees with one root hold the same locks |
| Merkle.RemoveHash | transfer/mtree/mtree.go:257-273 | the first copy of the lock is taken out, and found says whether there was one |
| Merkle.WithThenWithout | transfer/mtree/mtree.go:240-292 | removing a lock right after adding it gives the leaves back |
| Merkle.ComputeMerkleRootWith | transfer/mtree/mtree.go:240-247 | the new tree has the old leaves and the new one |
| EndStates.LockedIsLeafSum | channel/ChannelEndState.go:90-99 | the sum over the two live maps is the sum over the tree's leaves |
| EndStates.EndRegisterSound | channel/ChannelEndState.go:243-415 | every message keeps the maps disjoint, keyed by hash and with each leaf recorded |
| EndStates.EndRegisterConsistentIff | channel/ChannelEndState.go:243-393 | maps, tree and stored root stay in agreement if and only if the message is not a half-done removal |
| EndStates.EndRefusalIff | channel/ChannelEndState.go:243-393 | a refusal leaves the side unchanged if and only if it is not a half-done removal |
| EndStates.EndAcceptance | transfer/state.go:48-79 | an acceptance stores the proof of the message, with no on-chain part, and needs none before |
| EndStates.SecretKeeps | channel/ChannelEndState.go:400-415 | moving a lock from pending to known keeps maps and tree in agreement |
| EndStates.RevealedKeeps | channel/ChannelEndState.go:420-437 | marking a lock as registered on chain keeps maps and tree in agreement |
| EndObjects.SumLocks | channel/ChannelEndState.go:90-99 | the loop over a lock map computes its total |
| EndObjects.EndState.GetDistributable | channel/ChannelEndState.go:107-116 | deposit minus sent plus received minus locked |
| EndObjects.EndState.ComputeWithout | channel/ChannelEndState.go:209-218 | the tree without the lock and its root, or an error when it is not a leaf |
| EndObjects.EndState.TryRemoveHashLock | channel/ChannelEndState.go:377-393 | the remaining tree and root, refused for unknown, registered and unexpired locks |
| EndObjects.EndState.RegisterDirectTransfer | channel/ChannelEndState.go:243-253 | the object becomes what the value model says and stays valid |
| EndObjects.EndState.RegisterMediatedMessage | channel/ChannelEndState.go:347-372 | same, for a new lock |
| EndObjects.EndState.RegisterSecretMessage | channel/ChannelEndState.go:293-330 | same, for an unlock |
| EndObjects.EndState.RegisterRemoveLock | channel/ChannelEndState.go:267-276 | same, for the part of a removal after the tree was replaced |
| EndObjects.EndState.RegisterSecret | channel/ChannelEndState.go:400-415 | same, for a secret learned off chain |
| EndObjects.EndState.RegisterRevealedSecretHash | channel/ChannelEndState.go:420-437 | same, for a secret registered on chain |
| EndObjects.EndState.UpdateContractBalance | channel/ChannelEndState.go:149-155 | a deposit only grows |
| EndObjects.EndState.CanUnlockOnChain | channel/ChannelEndState.go:440-462 | exactly the registered locks get a proof, and each proof of a leaf verifies |
| ChannelObjects.NewChannel | channel/channel.go:40-61 | an open channel around two sides, refused exactly for the timeouts the source refuses |
| ChannelObjects.Channel.PreCheckReceivedTransfer | channel/channel.go:460-505 | identifier, sender, nonce and amount are tested in the source's order |
| ChannelObjects.Channel.RegisterUnlock | channel/channel.go:522-532 | the channel object becomes what the value model says, and stays valid |
| ChannelObjects.Channel.RegisterDirectTransfer | channel/channel.go:549-575 | same, for a direct transfer |
| ChannelObjects.Channel.RegisterMediatedTransfer | channel/channel.go:592-669 | same, for a mediated transfer |
| ChannelObjects.Channel.RegisterRemoveLock | channel/channel.go:690-722 | same, for both removals, with the tree stored before the last check |
| ChannelObjects.Channel.RegisterTransfer | channel/channel.go:438-455 | same, for any message |
| ChannelObjects.Channel.CreateDirectTransfer | channel/channel.go:743-760 | the message or refusal of the value model |
| ChannelObjects.Channel.CreateMediatedTransfer | channel/channel.go:776-796 | same |
| ChannelObjects.Channel.CreateUnlockMessage | channel/channel.go:799-817 | same |
| ChannelObjects.Channel.CreateRemovalMessage | channel/channel.go:822-857 | same, for both removals |
| ChannelObjects.Channel.RegisterSecret | channel/channel.go:369-398 | our side first, the partner's only when ours does not know the hash |
| ChannelObjects.Channel.RegisterRevealedSecretHash | channel/channel.go:402-430 | same order, for a secret on chain |
| ChannelObjects.Channel.OnClosed | eventhandler.go:893-902 | state, closing block, settle block and the closed side's on-chain values |
| ChannelObjects.Channel.OnProofUpdated | channel/channel.go:165-171 | the named side's on-chain values |
| ChannelObjects.Channel.OnUnlocked | eventhandler.go:940-950 | the payer's on-chain amount; panics exactly on an open channel |
| ChannelObjects.Channel.OnDeposit | eventhandler.go:929-939 | the participant's deposit, never lowered |
| ChannelObjects.Channel.OnPunished | channel/channel.go:195-218 | the beneficiary gets both deposits and an empty on-chain record |
| ChannelObjects.Channel.OnWithdraw | channel/channel.go:291-330 | both sides start again from the new deposits under the new open block |
| ChannelObjects.Channel.OnSettled | eventhandler.go:903-911 | the channel is settled and the settle block never moves back |
| ChannelObjects.Channel.StateTransition | eventhandler.go:884-956 | every chain event does what the value model says and keeps the object valid |
| ChannelObjects.Channel.PrepareForWithdraw | channel/channel.go:1251-1257 | only an open channel starts to prepare, and nothing else changes |
| ChannelObjects.Channel.PrepareForCooperativeSettle | channel/channel.go:1271-1277 | the same for a cooperative settle |
| ChannelObjects.Channel.CancelWithdrawOrCooperativeSettle | channel/channel.go:1289-1298 | back to open exactly from the two preparing states |
| ChannelObjects.Channel.Settle | channel/channel.go:1361-1388 | submits the on-chain values of both sides exactly when closed and late enough |
| ChannelObjects.Channel.RegisterCooperativeSettleRequest | channel/channel.go:1158-1181 | the registration of the value model |
| ChannelObjects.Channel.AnswerSettleRequest | messagehandler.go:623-646 | an unpacked request never panics the node; it is answered with its own data if and only if it registers, and then splits the deposits |
| ChannelLaws.RejectionIsAtomicIff | channel/channel.go:690-722 | a refused message leaves the whole channel unchanged if and only if it is not a removal whose sender is already on chain |
| ChannelLaws.TransferConsistentIff | channel/channel.go:438-722 | a message keeps maps, trees and roots of both sides in agreement if and only if it is not a half-done removal |
| ChannelLaws.AcceptanceShape | channel/channel.go:460-722 | an acceptance changes only its sender, whose proof becomes the message's |
| ChannelLaws.PlainEventKeepsTerms | eventhandler.go:884-956 | events other than secrets and withdraws leave locks, trees and signed values of both sides alone |
| ChannelLaws.StepKeeps | channel/channel.go:165-722 | every step keeps soundness, and agreement but for half-done removals |
| ChannelLaws.RunSound | channel/ChannelEndState.go:243-437 | in every run: disjoint maps, every leaf a recorded lock, lock hashes right |
| ChannelLaws.RunConsistent | channel/ChannelEndState.go:243-437 | in every run without a half-done removal: the maps' union is the leaves, and the stored locksroot is the tree's root |
| Acceptance.UnlockTakenIff | channel/ChannelEndState.go:293-330 | a side takes an unlock if and only if nothing of its proof is on chain and the secret opens a lock recorded in either map, registered or not, that is a leaf, with the root without it and the amount raised by it |
| Acceptance.AcceptedIff | channel/channel.go:438-722 | on every sound channel the exact condition for each of the five messages to be accepted, over the maps and the leaves |
| Acceptance.AcceptedRecords | channel/channel.go:438-722 | an accepted message changes exactly its sender: one map entry, one leaf, the proof |
| Acceptance.LearnRecords | channel/ChannelEndState.go:400-415 | a learned secret opens exactly a waiting lock of its hash |
| Acceptance.RevealRecords | channel/ChannelEndState.go:420-437 | a registration by the expiration marks exactly the lock of its hash, a later one nothing |
| Acceptance.SecretGoesTo | channel/channel.go:369-430 | our side when it knows the hash, otherwise the partner's |
| ClosedChannels.RunClosedIff | eventhandler.go:893-902 | at every point of every run the channel is closed if and only if a close event was seen and nothing has left that state since |
| ClosedChannels.ClosedMeans | channel/channel.go:1361-1388 | from the first close event of an opening until a settle order, a cooperative order, a settle event or a reopening: closed, every message refused, and Settle submits exactly from closing block, settle timeout and punish period on |
| ClosedChannels.ClosedBuildsNothing | channel/channel.go:743-857 | no builder gives a message on a closed channel |
| ClosedChannels.CooperationForgetsClose | photonService.go:1445-1472 | a cooperative order takes every closed channel without locks out of the closed state, and Settle no longer submits |
| ClosedChannels.RunOpenIff | channel/channel.go:1251-1298 | at every point of every run the channel offers payments if and only if it was opened, reopened or resumed and nothing has stopped it since |
| ClosedChannels.StateDiagram | eventhandler.go:884-956 | which state each event and request leads to; messages and secrets never change it |
| Solvency.AcceptedSolventIff | channel/channel.go:549-669 | after an acceptance, on any sound channel, both sides are solvent if and only if a mediated transfer can pay for its raise and its lock |
| Solvency.AcceptedMovesMoney | channel/channel.go:438-722 | where an accepted message moves money: direct amounts from side to side, a mediated lock into the locked amount, an unlock exactly its lock to the receiver, a removal exactly its lock back to the sender |
| Solvency.MediatedMayOverdraw | channel/channel.go:592-669 | on every new funded channel an accepted mediated transfer overdraws its sender |
| Solvency.RunSolventIff | channel/ChannelEndState.go:90-116 | in every run without punishments, half-done removals included: neither side is overdrawn up to a point if and only if every mediated transfer accepted before it could be paid for |
| Solvency.RunSolvent | channel/ChannelEndState.go:90-116 | so in every run without punishments in which mediated transfers keep the transferred amount, neither side is ever overdrawn |
| ChannelRuns.LateDisposeBreaksTree | channel/channel.go:690-722 | a refused dispose response during settling still breaks the tree |
| ChannelRuns.AcceptancesIncrease | channel/channel.go:460-505 | acceptances of one sender strictly increase (open block, nonce), across withdraw resets |
| ChannelRuns.NoReplay | channel/channel.go:723-726 | no envelope is accepted twice in a channel's life |
| ChannelRuns.OffChainKeepsRecord | transfer/state.go:48-65 | no message, secret or request changes an on-chain amount or root, in any state |
| ChannelRuns.RecordIsChainHistory | channel/channel.go:165-276 | the record is at all times what the chain events so far said |
| ChannelRuns.SettleSubmitsChainHistory | channel/channel.go:1361-1388 | Settle submits exactly the values last given by closed, proof-updated, unlocked and punished events |
| ChannelRuns.DepositsAreChainHistory | eventhandler.go:929-939 | each side's deposit is at all times what the deposit, punish and withdraw events so far said |
| ChannelRuns.ReopeningMeans | channel/channel.go:291-330 | a reopening names exactly the two sides and forgets everything else, each side keeping its own payout |
| ChannelRuns.PunishmentMeans | channel/channel.go:195-218 | the beneficiary has both deposits, an empty record and the largest contract nonce; the cheater nothing |
| Timelocks.LocksExpireBeforeSettle | channel/channel.go:629-663 | when Settle is allowed every lock has expired with the punish period to spare, less how far messages before the close were judged past it |
| Timelocks.RegisteredLockStays | channel/ChannelEndState.go:377-437 | a registered lock leaves only by an unlock worth exactly its amount or a withdraw reset |
| Timelocks.RegisteredLockNotRemoved | channel/ChannelEndState.go:171-181 | no removal of a registered lock is accepted, expired or not |
| Timelocks.RunKeepsRegistered | channel/ChannelEndState.go:171-181 | the same over whole runs |
| Ledgers.RegisterMatches | channel/channel.go:438-722 | off chain, the code accepts exactly the messages a simple ledger rule accepts, and posts exactly what they say |
| Ledgers.TransferKeepsQuiet | channel/channel.go:438-722 | a channel without on-chain traces stays so under every message |
| Lockstep.BuiltAcceptedIff | channel/channel.go:743-857 | a built message is accepted by its own channel except for nonce overflow, a known hash or a late expiration |
| Builders.PayDirectMeans | channel/channel.go:743-760 | the order to pay is built if and only if the amount can be paid, and registering it moves exactly that amount from our free money to the partner's |
| Builders.PayMediatedMeans | channel/channel.go:776-796 | the order to lock is built if and only if the amount can be paid; registering it, for a new hash in time, locks exactly that amount and records exactly that lock |
| Builders.ReleaseMeans | channel/channel.go:799-817 | an unlock is built if and only if we know the secret of a lock of ours, and registering it gives the partner exactly that lock |
| Builders.DropMeans | channel/channel.go:822-857 | a removal is built if and only if the lock is ours, and has run out where that is asked, under the body asked for; registering it gives exactly that lock back to us |
| Builders.PaymentArrives | channel/channel.go:438-577 | from every reachable state a payment A can afford can be made and can arrive; then A has transferred exactly that much more and B's copy of A says the same |
| Builders.RemovalBuilt | channel/channel.go:822-857 | the same refusals on any channel, a registered secret included |
| Lockstep.HeadAccepted | channel/channel.go:438-722 | the oldest message under way is accepted once the receiver's clock has caught up |
| Lockstep.CopiesStayInStep | channel/channel.go:438-857 | in every reachable state of two copies, the messages under way turn each receiver's copy into the sender's own nonce, amount and locks |
| Lockstep.NodesConserveDeposits | channel/ChannelEndState.go:90-116 | in every reachable state of two nodes neither is overdrawn by its own books, and what both can spend, what both have locked and what is under way add up to the two deposits |
| Lockstep.CanComeToRest | channel/channel.go:438-857 | from every reachable state everything under way can still arrive, and then both copies of each side are equal |
| Transport.DeliveredInOrderOnce | network/protocol.go:251-360 | whatever the network does, the receiver takes a prefix of the queue, in order, each message once |
| Transport.OneAheadOfAcks | network/protocol.go:487-567 | in every reachable link a packet on the network is acked or the one being sent, everything sent before that one is acked, and acks come exactly from handled messages |
| Transport.LinkNextKeeps | network/protocol.go:310-360 | every step of sender, network and receiver keeps the link invariant |
| Transport.CanDrain | network/protocol.go:251-360 | from every reachable link all that was queued can still be taken, acked and completed |
| NetworkedChannel.WireRefines | network/protocol.go:487-567 | every step on the lossy network is a delivery of the ideal queue or nothing |
| NetworkedChannel.NetworkKeepsCopiesInStep | network/protocol.go:251-360 | two channels over the lossy network stay in step, and every new packet is accepted once the clock has caught up |
| NetworkedChannel.NetworkConservesDeposits | network/protocol.go:251-360 | the money law of the two nodes over the lossy network |
| NetworkedChannel.NetworkCanComeToRest | network/protocol.go:251-360 | from every reachable state of the lossy network everything queued can still be carried over, and then both copies of each side are equal |
| Builders.SentMeans | network/protocol.go:395-434 | an order that is built and accepted at home queues exactly that message; any other does nothing |
| Cooperation.RegisteredSettleRequest | channel/channel.go:953-989 | a registered request splits the total deposits; the response panics exactly when the sender is not named first and the balances differ |
| Cooperation.UnpackedSettleRequest | encoding/message.go:1714-1739 | a request that names its signer first never panics, and the response repeats it |
| Cooperation.RegisteredWithdrawRequest | channel/channel.go:1011-1086 | a registered withdraw request never panics, and the balances add up to the deposits |
| Cooperation.SettleDataIff | channel/channel.go:953-989 | settle data is in order if and only if it names the two sides, each with its own balance |
| Cooperation.SettleRegisteredIff | channel/channel.go:1158-1238 | when a request and a response are taken, and the state that follows |
| Cooperation.WithdrawRegisteredIff | channel/channel.go:1011-1117 | the same for a withdraw |
| Cooperation.SettleHandshakeIff | channel/channel.go:1125-1238 | from copies at rest the handshake completes if and only if the requester holds no known-secret lock of its own |
| Cooperation.WithdrawHandshakeIff | channel/channel.go:925-1117 | the same for a withdraw |
| EventPump.SortIsStable | blockchain/statechangesort.go:31-33 | the result is sorted by block, a permutation, and keeps the order within a block |
| EventPump.Events.ParseLogsToEvents | blockchain/events.go:310-423 | the loop selects the changes and the record of the value model |
| EventPump.Events.SendStateChanges | blockchain/events.go:235-249 | a tick goes before the first change of each block |
| EventPump.Events.NotifyStartupCompleteIfNeeded | blockchain/events.go:131-139 | the completion notice is sent at most once |
| EventPump.Events.HandleNewHead | blockchain/events.go:214-264 | one successful round: select, sort, send, tick, prune |
| EventPump.Events.AlarmRound | blockchain/events.go:156-274 | one round of the loop, with repeated heads and failed queries |
| PumpDelivery.DeliveredOnceIff | blockchain/events.go:214-264 | a change is delivered at most once, and exactly if its log is the first not held back of those with its identifier, in the first round that could deliver any of them |
| PumpDelivery.AloneDeliveredIff | blockchain/events.go:214-264 | a log with an identifier of its own is delivered exactly if some round asks for its block and does not hold it back |
| PumpDelivery.SmallTransactionsUnrivalled | blockchain/events.go:59-64 | identifiers are distinct when the logs of each transaction lie within 256 positions of the block |
| PumpDelivery.ShadowedIsLost | blockchain/events.go:310-320 | a log behind another with its identifier is never delivered, if it is held back whenever that one is |
| PumpDelivery.TwinIsLost | blockchain/events.go:59-64 | of two logs of one transaction 256 positions apart the second is lost in every run |
| PumpDelivery.NothingInvented | blockchain/events.go:310-423 | only logs of the chain are delivered |
| PumpDelivery.PromptDelivery | blockchain/events.go:214-264 | without fork confirmation such a log is delivered exactly once if and only if it lies between the first window and the last head |
| PumpDelivery.ConfirmedDelivery | blockchain/events.go:331-344 | with it, exactly once if and only if a round has started seventeen blocks later, when the head advances at most eighteen blocks a round |
| PumpDelivery.JumpLosesLog | blockchain/events.go:331-344 | a larger jump loses the log for good |
| PumpOrder.OneNotice | blockchain/events.go:131-139 | the node is told exactly once that the history is complete, in the first round, whatever comes of it |
| PumpOrder.StartReportedOnce | blockchain/events.go:184-203 | the start block is reported again exactly in the first round whose head is not above it |
| PumpOrder.MemoryIsPruned | blockchain/events.go:259-264 | what is remembered after a round is above the first block it asked for |
| PumpOrder.HalvesTogether | blockchain/events.go:346-418 | both changes of an open-and-deposit are delivered or neither, one change of every other known event, none of an unknown one |
| PumpOrder.OpeningBeforeDeposit | blockchain/statechangesort.go:31-33 | in every run the opening is sent before the deposit that came with it |
| PumpClock.RunOnTime | blockchain/events.go:235-254 | every change arrives while the clock shows its own block, and after every round the clock shows the head |
| PumpClock.NoTickBeyondUndelivered | blockchain/events.go:235-254 | the clock never passes the block of a log that has not been delivered |
| PumpClock.ConfirmedTicks | blockchain/events.go:235-254 | a held-back log may be passed by the confirmation time and one step of the head, but by no more |
| PumpedChannel.RevealRegistersIff | channel/channel.go:402-430 | the event marks a lock as registered, on the partner's side if and only if our side does not know the hash |
| PumpedChannel.InTimeRevealPreventsRemoval | channel/ChannelEndState.go:377-437 | over a whole run driven by the loop, a lock whose secret was registered by its expiration, or with fork confirmation one step of the head earlier, is never removed as expired |
| PumpedChannel.NoticeIsOvertaken | blockchain/events.go:338-344 | with fork confirmation the clock can pass the registration by that much before the node hears of it |
| PumpedChannel.OvertakenRemovalIff | channel/ChannelEndState.go:377-393 | and then the removal of the lock is accepted if and only if the registration came less than that step before the expiration |
| PumpedChannel.DrivenLocksExpireBeforeSettle | eventhandler.go:893-898 | in a run driven by the loop every lock has expired when Settle is allowed, if the punish period covers one window |
| Persistence.NewChannelSerialization | channel/channel.go:1474-1509 | everything is saved; the secrets in whatever order the map is walked |
| Persistence.GetSecretHashMap | channel/channeltype/type.go:157-163 | the loop builds the map by hash |
| Persistence.Lock2PendingLocks | channel/channeltype/type.go:184-213 | the loop rebuilds the pending map |
| Persistence.Lock2UnclaimedLocks | channel/channeltype/type.go:140-181 | the loop rebuilds the known map |
| Persistence.SavedAmountLocked | channel/channeltype/type.go:114-129 | the sum of the saved leaves |
| Persistence.SavedLockedIsLive | channel/channeltype/type.go:114-129 | that sum is the one of the live maps |
| Persistence.EndRoundTripIff | channel/channeltype/type.go:114-213 | loading gives back maps, secrets, flags, tree and proof if and only if no lock has lost its leaf |
| Persistence.ChannelRoundTrip | photonService.go:791-816 | saving and loading a well-formed channel gives the same channel |
| Persistence.RunSurvivesRestart | photonService.go:791-816 | at any point of a run the reloaded channel is the channel of the run |
| Persistence.LoadChannel | photonService.go:791-816 | the rebuilt object, refused exactly for bad timeouts |
| Persistence.Restart | photonService.go:791-816 | a new object shows exactly what the old one did |
| HashIndex.Service.RegisterChannelForHashlock | photonService.go:770-790 | the channel is listed, once |
| HashIndex.Service.RemoveChannelForHashlock | photonService.go:2332-2357 | what is left in the stored slice, aliasing included |
| HashIndex.CutKeepsOthers | photonService.go:2332-2357 | a removal never loses another channel or hash |
| HashIndex.CutLeavesStaleIff | photonService.go:2332-2357 | the removed channel itself stays listed if and only if others are listed and it is the last or named twice |
| HashIndex.StepKeepsCoverIff | photonService.go:770-790 | a step keeps every live lock listed if and only if it does not release a hash the other side of the channel holds too while the cut unlists the channel |
| HashIndex.RunCoversIff | photonService.go:770-790 | over a run from a covering index: every live lock is listed throughout if and only if no step so far hid one |
| HashIndex.OneWayNeverHides | photonService.go:770-790 | a hash used in one direction of a channel is never hidden |
| HashIndex.TwoWayLosesCover | photonService.go:2332-2357 | a concrete channel with one hash in both directions whose accepted unlock hides the partner's lock |
| HashIndex.SecretReachesAll | photonService.go:734-746 | after registerSecret every waiting lock of the hash is open with the secret, in every channel, and no other lock has changed |
| HashIndex.RevealReachesAll | photonService.go:752-769 | after the on-chain event every unexpired lock of the hash is marked, and nothing else changes |
| HashIndex.CollectLocks | restore.go:68-107 | every live lock is collected exactly once |
| HashIndex.RestoreLocks | restore.go:61-144 | the locks are grouped; the index covers every live lock, and lists nothing but what it had and their channels |
| HashIndex.GroupsPartition | restore.go:111-135 | each live lock is exactly once in the group of its hash and token, on its side, and nowhere else |
| UnlockLoop.ExternalState.Unlock | channel/ChannelExternalState.go:131-170 | the loop's calls, record and amount are those of the value model; it fails if and only if a call failed |
| UnlockLoop.EveryTurnIff | channel/ChannelExternalState.go:137-164 | at its turn a proof gets a call if and only if its hash is not disposed, was not on record and has not gone through since, whatever failed before |
| UnlockLoop.ClaimsAreDue | channel/ChannelExternalState.go:137-164 | for distinct hashes the calls claim exactly the proofs that are due, in order |
| UnlockLoop.AllGained | channel/ChannelExternalState.go:137-164 | when all succeed the amount is the start plus the sum of what was due |
| UnlockLoop.LoopIsCurrentIff | channel/ChannelExternalState.go:131-170 | the final amount is the start plus the locks that went through, and every call passes the contract's current amount if and only if the start was current or no call is made |
| UnlockLoop.NeverTwice | channel/ChannelExternalState.go:138-144 | over any number of calls and disposals in between no lock is claimed that was disposed by then, and none goes through twice |
| UnlockLoop.NeverAfterDispose | channel/ChannelExternalState.go:142-144 | once a lock is disposed no later call claims it |
| TokenSwaps.SwapMaker.SendAsync | photonService.go:1602-1612 | the hook on sent transfers |
| TokenSwaps.SwapMaker.OnMediatedTransfer | photonService.go:1613-1623 | the hook on accepted transfers |
| TokenSwaps.SwapMaker.OnSecretRequest | messagehandler.go:52-60 | whether a secret request reaches the state manager |
| TokenSwaps.SwapMaker.TokenSwapMaker | photonService.go:1584-1628 | the hooks and the first transfer |
| TokenSwaps.RequestThroughIff | photonService.go:1584-1628 | in every run a secret request gets through if and only if the maker has sent a transfer, and the taker's was accepted after it, or the guard was never armed, or was disarmed by the user and not armed again |
| TokenSwaps.FeeLeavesGateOpen | photonService.go:1602-1612 | with a fee on the transfer sent, a request right after the start gets through |
| ByteCodec.VarIntReads | utils/util.go:185-273 | the reader inverts the writer on every unsigned 64-bit value |
| ByteCodec.VarIntUnique | utils/util.go:185-243 | the reader accepts only the unique shortest encoding |
| ByteCodec.Buffer.WriteVarInt | utils/util.go:247-273 | the bytes appended |
| ByteCodec.Buffer.ReadVarInt | utils/util.go:185-243 | the value and what is left, or an error |
| ByteCodec.BigIntTo32Bytes | utils/crypto.go:95-105 | the two loops give the 32-byte big-endian form of the absolute value |
| ByteCodec.BigIntRoundTripIff | utils/crypto.go:95-117 | writer and reader are inverse on a value below 2^256 in size if and only if it is not negative |
| Wire.FieldReads | encoding/message.go:668-699 | reading any field gives back its value and leaves exactly what follows |
| Wire.UnPackReads | encoding/message.go:994-1054 | UnPack of Pack gives back every field of every valid message |
| Wire.DispatchFindsType | network/protocol.go:487-508 | dispatch on the first byte finds the type that packed the message |
| Wire.TakenOnlyIf | network/protocol.go:487-508 | a packet is taken only as a readable message of the type of its first byte, within the size limits, with a valid envelope, a current version and, but for an Ack, a signature that verifies |
| Wire.PackedTakenIff | encoding/message.go:994-1054 | every packing, followed by anything, is taken as what was packed if and only if message, size and signature are in order, and dropped otherwise |
| Wire.EnvelopeAtEnd | encoding/message.go:668-699 | nonce, channel, open block, amount, locksroot and signature are the last 177 bytes, in this order |
| Wire.PackIsInjective | encoding/message.go:1963-1978 | two valid messages with one packing are equal, across types |
| Wire.TruncatedIsRefused | encoding/message.go:680-699 | no packet cut short unpacks, although single short reads go unnoticed |
| Wire.PanicsIff | encoding/message.go:259-276 | exactly the packets on which the receiver panics |
| Wire.PackMessage | encoding/message.go:994-1018 | the buffer ends up holding the packing |
| Wire.UnPackMessage | encoding/message.go:1021-1054 | the reads and checks of the unpackers, in order |
| Wire.WritePath | encoding/message.go:1008-1012 | the loop over the path appends the addresses |
| Wire.ReadPath | encoding/message.go:1041-1048 | the loop reads as many addresses as the count says, none for a negative one |

## Left out

- Initiator, mediator, target and crash state machines, routing, fees: they decide which messages are built, not what a channel does with them.
- Signatures: a message carries its sender, and in `Wire` the check of a packet is a parameter.
- Hash collisions: digests are terms. Locks with a negative expiration, whose 32-byte form loses the sign, are taken as distinct from positive ones.
- Crashes inside a handler: a restart happens between two steps only.
- Chain reorganisations and logs that do not unpack: every answered query is answered from one final chain, every log unpacks, and the first 24 bytes of a transaction's hash identify it.
- EventPump.Events.AlarmRound: a failed header query, which ends the loop until the client reconnects and the node starts it again from its saved block, is not a round; runs are those between two such starts.
- PumpDelivery.PromptDelivery: for a log with an identifier of its own; `DeliveredOnceIff` covers the others.
- PumpDelivery.ConfirmedDelivery: the same, and for steps of the head of at most `FORK_CONFIRM + 1` blocks (`JumpLosesLog`).
- PumpClock.NoTickBeyondUndelivered: for a log with an identifier of its own from the first window on; one that is lost is passed by the clock.
- PumpedChannel.InTimeRevealPreventsRemoval: the registration has an identifier of its own, lies in a block the first window reaches, and was not handled before; the lock had not run out by `FORK_CONFIRM` blocks when the loop started; and for a lock of the partner our side does not hold the same hash (`RevealRegistersIff`).
- Channel removal and message expiry in the transport (`messageCanBeSent`): the link is that of a channel that stays open.
- Transport.DeliveredInOrderOnce: says nothing on when; `CanDrain` says that nothing gets stuck; the timing of retransmissions and the wake-up of offline peers are not modelled.
- Lockstep.CopiesStayInStep: no secret is registered on chain and the receiver's view of a deposit is never behind its owner's.
- Solvency.RunSolvent: for runs without punishments in which mediated transfers keep the amount, as documented; without the latter it is false (`MediatedMayOverdraw`), and `RunSolventIff` has the exact condition. Payouts of a withdraw are unsigned, as on chain.
- Timelocks.LocksExpireBeforeSettle: takes the order of messages and the close event as an assumption; `PumpedChannel.DrivenInOrder` proves it, with a slack of one window, for runs driven by the loop.
- ChannelRuns.RecordIsChainHistory: assumes one close event between two resets, since a repeated one is ignored by the handler and not by the history.
- ChannelObjects.Channel.OnProofUpdated: does not start the on-chain unlocking that follows; `UnlockLoop` models that loop by itself.
- ChannelObjects.Channel.OnClosed: does not send the partner's proof to the contract or start unlocking.
- ChannelObjects.Channel.RegisterMediatedTransfer: the callback that lists the channel under the hash is in `HashIndex.NodeStep`.
- ChannelObjects.Channel.RegisterRemoveLock: the database record of removed locks is left out.
- HashIndex.Service.RegisterChannelForHashlock: the two nested maps by token and hash are one map by pair.
- TokenSwaps.SwapMaker.TokenSwapMaker: a second order for a hash that is already being sent is ignored; the source registers a second set of hooks.
- UnlockLoop.NeverTwice: for calls one after the other, with disposals between them; two at the same time, or a disposal during one, are not modelled.
- Wire.UnPackMessage: the unpackers of all messages are one reader driven by the table of layouts; a packet longer than its message is read like the source does, ignoring the rest.
- `CreateWithdrawRequest` with too large an amount: the source dereferences a nil message there, which the model gives as a panic.
- Cooperative settlement on chain, the reward loop, statistics, notifications, storage engines, REST and mobile interfaces, Matrix, XMPP and UDP.
