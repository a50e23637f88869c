# go-perun: a verified model of its channel core

This project models the parts of go-perun that decide whether funds are safe, and proves properties of the model
over every input, every run or every reachable state. It has five connected parts.

- **The channel machine and the two-party update protocol.** `Machine.dfy` gives the machine's operations on
  values and the invariants of all runs; `StateMachine.dfy` is the object whose methods do those operations;
  `Divergence.dfy` and `Agreement.dfy` put two machines and a pool of messages side by side, `Rounds.dfy` says which
  updates go through and what gets stuck; `Lifecycle.dfy` opens and closes a channel; `Update.dfy` holds the client's
  protocol steps.
- **Funds in channel trees and virtual channels.** `Allocation.dfy`, `SubChannels.dfy`, `Conservation.dfy`,
  `TreeUpdates.dfy` and `SubChannelLife.dfy` for trees, `VirtualChannels.dfy`, `Settlement.dfy`, `Hub.dfy` and
  `HubLife.dfy` for virtual channels, `Payment.dfy` and `Transfers.dfy` for the payment app on top of the machine.
- **Persistence.** `Keys.dfy` and `Store.dfy` model the sorted key-value store, its tables and batches;
  `KeyLayout.dfy` the keys of a channel; `Persistence.dfy`, `Restore.dfy`, `ChannelIterator.dfy`,
  `PersistRestorer.dfy` and `PeerRestore.dfy` the persister, the restorer and the machine that persists;
  `Client.dfy` many channels in one database; `Leftovers.dfy` what restoring gets wrong and exactly when.
- **Wire encodings.** `Codec.dfy`, `SparseSigs.dfy`, `Wire.dfy`, and `Format.dfy` for the bytes themselves.
- **Small concurrent components and the walk over channel trees.** `Endpoints.dfy`, `Relay.dfy` and
  `RelayRuns.dfy`, `Tree.dfy`.

Objects that the source updates in place are classes whose methods are tied to functions on values; the theorems
are about those functions.

Conventions. Signing, verifying, the app's checks, each app's decoding of its data and the hash that yields a
channel ID are functions passed as parameters (`Env`, `Backend`); the only law assumed of signatures is that an
account's own signature verifies (`Lawful`), and of app data that the app reads back what it wrote (`WireData`). Integers are unbounded except where the source's width matters: versions wrap at 2^64 and indices are
16 bits wide on the wire. Where the source panics or dereferences nil, the model yields `None` or a named outcome.

Which operations each run theorem includes:

- `Machines.SignaturesValidOnEveryRun`: all operations, `ForceUpdate` and `SetProgressed` included.
- `Machines.HistoryOnEveryRun`, `Machines.FrozenOnceRegistering`, `Payments.NonActorNeverLoses`: all but
  `ForceUpdate` and `SetProgressed`.
- `Divergence.BoundedDivergence`: the same, with versions below the wrap-around and on-chain progression requested
  with the next version, as `ProgressBy` does. Messages may be lost, duplicated, reordered; parties may discard at
  any time.
- `Agreement.AgreementOnEveryRun`: propose, send, accept, reject, ignore and failing sends by either party, where a
  proposer gives up a staged update only after a rejection or an undelivered proposal.
- `Rounds.NoRunGetsStuck`: from every state of such a run, all ways to go on without new proposals, failing sends and
  ignored requests.
- `Restore.RestoreRefines`: all operations except `SetWithdrawn` (which removes the channel), with any writes to
  other channels in between. `Clients.TablesOnEveryRun` and `Clients.EveryChannelRestores`: creations and such
  operations of any number of channels in one database, from the empty database on.
- `Hubs.BooksBalance`, `Hubs.HubComesOutWhole`: matching, funding, finishing and settling of any number of virtual
  channels in any number of parents, side by side and parent by parent, with ordinary updates in between.

Findings about the code that the theorems make precise:

- A restored staging signature is the machine's exactly if no event dropped a signature of that slot without a later
  one writing the slot: `Staged` does not clear the signature keys (`Leftovers.SlotRestoredIff`). In one concrete run
  the restored own slot holds a signature that does not verify for the restored state (`Leftovers.SampleLeftover`),
  and `Sig` then hands that signature out (`Leftovers.LeftoverIsHandedOut`).
- Decoding a signature slot may fail unnoticed: `Next` ignores the result and a later value clears the error. For a
  single channel, as in `RestoreChannel`, `Persistence.ChannelHidesFailureIff` says exactly when, and
  `Leftovers.SampleFailedSlot` gives a store. In the client's loop over the channels of a peer the first value of a
  following channel clears the error too: `ChannelIterators.UnnoticedIff` says exactly when a failed slot of one of
  several channels goes unnoticed, and `Leftovers.SampleUnnoticed` gives values.
- `SubAlloc.Equal` ignores index maps (`Allocations.SubAllocEqual`). So an update may rewrite the map of a virtual
  channel's entry unseen (`VirtualChannels.MapRewriteAccepted`). The hub gets everything back under all final states
  exactly if the last participants that the two maps send to it exist and differ (`VirtualChannels.SettleMapsExact`);
  for injective maps this is the matching check (`VirtualChannels.MatchingIsExact`), for others it is not
  (`VirtualChannels.RewrittenMapUncovers`).
- The hub's check of a funding proposal looks at one entry and not at the balances. An accepted proposal is the honest
  one exactly if assets, dimensions, the whole Locked list with its maps and the hub's own balances are the honest ones
  (`VirtualChannels.FundingHonestIff`); `VirtualChannels.UnevenFundingAccepted`,
  `VirtualChannels.ShiftedFundingAccepted` and `VirtualChannels.CrossedFundingAccepted` are accepted ones that are not.
- The filters for sub-channel fundings and settlements do not look at other entries. An accepted update keeps the tree
  of channels in order exactly if it leaves them alone (`TreeUpdates.FundingKeepsTreeIff`,
  `TreeUpdates.SettlementKeepsTreeIff`, and `VirtualChannels.SettlementHonestIff` for virtual channels);
  `TreeUpdates.SampleFundingBreaks`, `TreeUpdates.SampleSettlementBreaks` and
  `VirtualChannels.ShiftedSettlementAccepted` are accepted ones that do not.
- Two parties that propose at the same time wait for each other, each holding its machine
  (`Rounds.CrossingBlocks`); apart from crossed and ignored proposals everything under way comes to an end
  (`Rounds.EndsWellIff`, `Rounds.NoRunGetsStuck`).
- The hub checks the signatures of a settlement's final state that are given, not that they are complete
  (`Settlement.ShortListAccepted`); the forced final update catches incomplete ones
  (`Settlement.ForceCatchesShortLists`, `Settlement.ForceFinalState`).
- After the forced final update the virtual channel's machine is in phase Final, so `SetWithdrawn` fails, its error is
  only logged, and the channel is not removed from persistence (`Settlement.MatchSettlement`).
- The machine goes beyond its own table of phase transitions in six ways (`Lifecycle.PhasesFollowTable`).
- A batch that fails to apply is not rolled back (`Store.Batch.Apply`).
- An honestly built settlement or withdrawal is accepted exactly if the channel is locked once in the parent
  (`VirtualChannels.HonestSettlementAccepted`, `SubChannels.WithdrawalPassesFilter`).
- An index map carries funds without loss exactly if it is injective (`VirtualChannels.TransferExactness`).
- Locking a channel and all its sub-channels succeeds exactly if every channel of the walk is registered, its mutex is
  free, and no channel is reached twice (`Tree.TryLockRecursive`, `Tree.WalkCoversTree`).

## Model

| member | source | states |
|---|---|---|
| Allocations.SumBalancesLoop | channel/allocation.go:437-450 | the running totals are the per-asset sums |
| Allocations.SumAllocLoop | channel/allocation.go:423-434 | the totals are, per asset, all balances plus all locked funds |
| Allocations.Operate | channel/allocation.go:210-227 | the operation is applied place by place; mismatched dimensions are the panic |
| Allocations.AddSubInverse | channel/allocation.go:194-207 | adding and subtracting the same balances undo each other |
| Allocations.OperateTotals | channel/allocation.go:194-207 | adding and subtracting move each asset total by the operand's total |
| Allocations.FindFrom | channel/allocation.go:462-471 | the first entry with the ID is found, and none exactly if there is none |
| Allocations.FindSubAlloc | channel/allocation.go:462-471 | an entry of the list with that ID, and none exactly if there is none |
| Allocations.AllocationCell.AddSubAlloc | channel/allocation.go:474-476 | the entry is appended and nothing else changes |
| Allocations.AllocationCell.RemoveSubAlloc | channel/allocation.go:479-491 | the first equal entry goes, the rest keep their order; failure changes nothing |
| Allocations.RemoveByID | channel/allocation.go:462-491 | removing what was found by ID drops exactly that entry |
| Allocations.RemovedIsAbsent | channel/allocation.go:462-491 | after removing an entry whose ID is locked once, the ID is not found |
| States.NewState | channel/state.go:68-86 | a new state is a valid allocation with one balance per participant and asset |
| Lifecycle.InitIff | channel/statemachine.go:69-85 | Init succeeds exactly in phase InitActing, for an allocation of the limits of Valid with one balance per participant and asset, if the app accepts; it stages exactly that allocation and data at version 0, with no signatures |
| Lifecycle.InitialEntry | channel/state.go:68-86 | in every off-chain run in which Init succeeded, version 0 in the history has exactly its allocation and data, the channel's ID and app |
| Lifecycle.OpeningGoesThrough | channel/machine.go:269-357 | for any number of participants: initialised, signed by all and funded, each machine acts on exactly the agreed allocation, fully signed |
| Lifecycle.SignatureRefusedIff | channel/machine.go:269-286 | a signature is refused exactly outside the signing phases, without a staged state, for a filled or foreign slot, or if it does not verify; otherwise it fills its slot only |
| Lifecycle.EnabledIff | channel/machine.go:309-351 | a staged state is enabled exactly in its phase, fully signed and with the finality that fits |
| Lifecycle.FinalStateWithdrawn | channel/machine.go:321-419 | a fully signed final state is enabled and withdrawn, and is the last entry of the history |
| Lifecycle.RegisteredWithdrawnIff | channel/machine.go:363-419 | a machine can be registered and withdrawn exactly from phase Funding on, and keeps its transactions |
| Lifecycle.ProgressedWithdrawn | channel/machine.go:376-419 | a state progressed on-chain is the last entry of the history, unsigned, and is withdrawn |
| Lifecycle.PhasesFollowTable | channel/machine.go:430-451 | every successful operation follows the table of transitions, but for the six named deviations |
| Lifecycle.TransitionsHappen | channel/machine.go:430-451 | every transition of the table can be made as soon as what it enables is signed |
| Machines.SignatureStep | channel/machine.go:206-428 | every operation keeps the signature invariant |
| Machines.SignaturesValidOnEveryRun | channel/machine.go:206-351 | in every run: staging is set in signing phases, has one slot per participant, each filled slot verifies; current is empty, fully and validly signed, or an on-chain progressed state |
| Machines.HistoryStep | channel/machine.go:297-428 | every off-chain operation keeps the history and phase invariants and, from Registering on, the history itself |
| Machines.HistoryOnEveryRun | channel/machine.go:471-501 | in every off-chain run the history is an empty entry followed by versions 0, 1, 2, ... of one channel with constant totals, only the last possibly final |
| Machines.FrozenOnceRegistering | channel/machine.go:363-428 | once Registering is reached, no later off-chain operation changes the current transaction or goes back |
| StateMachines.IndexOfAddr | wallet/address.go:45-53 | the first index of the address, or none exactly if absent |
| StateMachines.NewStateMachine | channel/machine.go:130-143 | a new machine for the first participant with the account's address, and none exactly if there is none |
| StateMachines.StateMachine.Init | channel/statemachine.go:69-85 | success and new machine are those of the value model's operation |
| StateMachines.StateMachine.CheckUpdate | channel/statemachine.go:111-125 | in phase Acting it succeeds exactly if Update and then AddSig would succeed; it changes nothing |
| StateMachines.StateMachine.Update | channel/statemachine.go:89-100 | success and new machine are those of the value model's operation |
| StateMachines.StateMachine.ForceUpdate | channel/statemachine.go:103-106 | stages without any check |
| StateMachines.StateMachine.Sig | channel/machine.go:206-221 | signs the staged state once and returns the signature in the own slot |
| StateMachines.StateMachine.AddSig | channel/machine.go:269-286 | fills a free slot exactly with a verifying signature |
| StateMachines.StateMachine.DiscardUpdate | channel/machine.go:297-305 | back to Acting with nothing staged, only from Signing |
| StateMachines.StateMachine.EnableStaged | channel/machine.go:330-351 | promotes exactly a fully signed staged state whose finality fits the target phase |
| StateMachines.StateMachine.SetRegistering | channel/machine.go:363-370 | possible exactly from Funding on |
| StateMachines.StateMachine.SetProgressed | channel/machine.go:397-400 | forces the event's state without signatures |
| StateMachines.StateMachine.SetWithdrawing | channel/machine.go:406-412 | possible exactly from the listed phases |
| Divergence.TrackedStep | channel/machine.go:269-351 | every honest operation keeps: staged at most one version ahead, filled slots recorded as signed, current signed by both |
| Divergence.BoundedDivergence | client/update.go:164-227 | under arbitrary discards and message loss the two machines never differ by more than one version, each current state is signed by both, nothing signed is more than one version ahead of its signer |
| Agreement.AcceptNeverFails | client/update.go:319-371 | after CheckUpdate neither Update nor AddSig nor Sig fails, and the staged state is fully signed |
| Agreement.TakeAcceptEnables | client/update.go:196-218 | the accept that arrives always completes the update that waits for it |
| Agreement.ActKeepsInv | client/update.go:164-414 | every protocol step of either party keeps the two-party invariant |
| Agreement.AgreementOnEveryRun | client/adjudicate.go:69-74 | in every interleaving current states agree, or one party is one version ahead while the other has that very state staged and about to be enabled; an idle party is never behind |
| Rounds.RoundGoesThrough | client/update.go:164-414 | between two parties at rest a round goes through exactly if the current state is not final and the proposed one has the channel's ID and app, the next version, an allocation within the limits and equal totals per asset, and the app accepts; then both are at rest with exactly that state, fully signed |
| Rounds.ChainGoesThrough | client/update.go:164-414 | every chain of such states, proposed by either party in any order, is played to its end |
| Rounds.RejectionTaken | client/update.go:373-391 | a rejection ends the round of the proposer that waits for it: both parties are free with unchanged, equal current states |
| Rounds.FailedSendUndone | client/update.go:220-227 | a proposal that could not be sent leaves no trace |
| Rounds.StuckIffQuiet | client/update.go:164-227 | nothing can go on exactly if each party is free with nothing to check or waits with no answer there |
| Rounds.EndsWellIff | client/update.go:164-414 | however the parties go on, at the end both are free and agree exactly if no proposal had been ignored and no two had crossed |
| Rounds.EndIsReached | client/update.go:164-414 | from every state under the invariant such an end is reached in a bounded number of moves |
| Rounds.NoRunGetsStuck | client/update.go:164-414 | so of every state of every run from two parties at rest |
| Rounds.CrossingBlocks | client/update.go:164-190 | two crossed proposals block both parties |
| Updates.Channel.ValidTwoPartyUpdate | client/update.go:429-438 | accepts exactly updates by the signer with unchanged sub-allocations |
| Updates.Channel.StageAndSign | client/update.go:164-190 | does the protocol's propose step |
| Updates.Channel.SendProposal | client/update.go:189-196 | does the protocol's send-proposal step |
| Updates.Channel.SendFailed | client/update.go:220-227 | does the protocol's failed-send step: the staged update is discarded |
| Updates.Channel.SendAccept | client/update.go:361-368 | does the protocol's send-accept step |
| Updates.Channel.FinishAccept | client/update.go:370-370 | does the protocol's finish step: the accepted state is enabled |
| Updates.Channel.HandleUpdateReq | client/update.go:273-317 | does the protocol's receive-proposal step |
| Updates.Channel.HandleUpdateAcc | client/update.go:319-371 | does the protocol's accept step, discarding on failure |
| Updates.Channel.HandleUpdateRej | client/update.go:373-391 | does the protocol's reject step |
| Updates.Channel.EnableNotifyUpdate | client/update.go:396-414 | enables the staged state as final or not, or discards |
| Updates.Channel.ReceiveAccept | client/update.go:196-218 | does the protocol's receive-accept step |
| Updates.Channel.ReceiveReject | client/update.go:196-227 | does the protocol's receive-reject step |
| SubChannels.FundSubChannel | client/subchannel.go:50-61 | the proposed parent state takes the balances out and locks their sums under the new ID |
| SubChannels.FundingIsValidTransition | client/subchannel.go:50-61 | for a checked proposal it is a valid transition exactly for an open parent with room in Locked |
| SubChannels.FundingPassesFilter | client/subchannel.go:122-131 | the peer's filter catches it exactly when the ID is not locked yet |
| SubChannels.AddIntoParent | client/subchannel.go:104-110 | the sub-channel's balances are added at their places and all others stay |
| SubChannels.WithdrawSubChannel | client/subchannel.go:87-120 | panics exactly if not withdrawable; otherwise releases the entry into the balances |
| SubChannels.WithdrawalIsValidTransition | client/subchannel.go:87-120 | releasing what the sub-channel holds is a valid transition of every open parent |
| SubChannels.WithdrawalPassesFilter | client/subchannel.go:133-143 | the peer's settlement filter catches it exactly if the sub-channel was locked once |
| Conservation.WithdrawNeverPanics | client/subchannel.go:87-120 | under the tree invariant no panic of the withdrawal is hit, its update is valid and passes the peer's filter |
| Conservation.WithdrawNeverPanicsOnRuns | client/subchannel.go:87-120 | so it is in every run from one ledger channel |
| Conservation.StepKeepsInv | client/subchannel.go:50-120 | funding, updates and withdrawals keep every Locked entry equal to its sub-channel's total |
| Conservation.StepConserves | client/subchannel.go:50-120 | no step changes the root's total or the participants' holdings over the tree |
| Conservation.TreeConservation | client/adjudicate.go:238-271 | in every run from one ledger channel: each Locked entry equals what its sub-channel holds, the root's total is constant, all holdings add up to it |
| SubChannelLife.FundIff | client/subchannel.go:50-61 | a sub-channel is funded exactly for an open parent with room, the parent's assets, and balances each of which the parent has; it locks nothing |
| SubChannelLife.FundedPlaceByPlace | client/subchannel.go:50-61 | each participant has in the parent exactly its balance in the new channel less; the new channel starts with exactly the proposed allocation and data |
| SubChannelLife.WithdrawnPlaceByPlace | client/subchannel.go:87-120 | each participant has in the parent exactly its balance in the settled channel more; only its entry goes |
| SubChannelLife.SubChannelLives | client/subchannel.go:50-120 | every fundable channel can be opened, brought to any agreed final state and withdrawn; each participant has gained in the parent what it gained in the channel |
| SubChannelLife.FundingPassesIff | client/subchannel.go:122-131 | the peer lets exactly those updates pass that lock the agreed amounts for a channel not locked before |
| SubChannelLife.SettlementPassesIff | client/subchannel.go:133-143 | the peer lets exactly those updates pass that unlock a locked channel and give each participant its final balance |
| TreeUpdates.InvIffOrderly | client/adjudicate.go:238-271 | the tree invariant says of every channel that its Locked list names no channel twice and is exactly what the channels below it hold |
| TreeUpdates.FundingKeepsTreeIff | client/subchannel.go:122-131 | an update that passes the funding filter and is a valid transition keeps the tree invariant exactly if its Locked list names no channel twice and has the old entries and the new one |
| TreeUpdates.SettlementKeepsTreeIff | client/subchannel.go:133-143 | one that passes the settlement filter does exactly if its Locked list names no channel twice and has the old entries without the settled one |
| TreeUpdates.SampleFundingBreaks | client/subchannel.go:122-131 | an accepted funding after which another entry exceeds what its channel holds |
| TreeUpdates.SampleSettlementBreaks | client/subchannel.go:133-143 | an accepted settlement after which an entry names a channel that does not exist |
| VirtualChannels.TransformBalances | client/virtual_channel_util.go:30-44 | balances land at their mapped places; an index out of range is the panic |
| VirtualChannels.TransferExactness | client/virtual_channel_util.go:30-44 | a map keeps every row's total exactly if it is injective |
| VirtualChannels.TransferKeepsTotals | client/virtual_channel_util.go:30-44 | an injective covering map preserves every asset total |
| VirtualChannels.ProposeFunding | client/virtual_channel.go:51-74 | the proposal takes the mapped balances out and locks the virtual channel's sum with the map |
| VirtualChannels.VirtualFundingIsValidTransition | client/virtual_channel.go:51-60 | for an injective covering map and sufficient balances it is a valid transition exactly for an open parent with room in Locked |
| VirtualChannels.BuiltFundingAcceptedIff | client/virtual_channel.go:231-291 | the hub accepts a built proposal exactly if IDs, virtual flag and map length fit, nothing is locked in the virtual channel, its signatures verify, it is not locked yet, the map loses nothing, assets are equal and every place in the parent has the funds |
| VirtualChannels.HonestFundingAccepted | client/virtual_channel.go:231-291 | the hub's validation accepts an honest proposal exactly if the virtual channel is not locked yet |
| VirtualChannels.CheckIndexMaps | client/virtual_channel.go:308-335 | accepts exactly if every virtual participant is mapped to the hub in some parent; indexes out of range exactly if a later map names the hub behind the end of the first |
| VirtualChannels.WithdrawVirtualChannel | client/virtual_channel_settlement.go:28-68 | the settlement gives the mapped final balances back and drops the entry; its panics are exactly the named ones |
| VirtualChannels.BuiltSettlementAcceptedIff | client/virtual_channel_settlement.go:97-148 | the hub accepts a built settlement exactly if the IDs fit, the given signatures verify, assets are equal and the channel is locked once |
| VirtualChannels.HonestSettlementAccepted | client/virtual_channel_settlement.go:97-148 | an honest settlement passes the hub's validation exactly if the virtual channel was locked once |
| VirtualChannels.SettlementIsValidTransition | client/virtual_channel_settlement.go:28-54 | and is a valid transition of every open parent |
| VirtualChannels.AtMostTwoParticipants | client/virtual_channel.go:308-335 | injective maps that pass the matching check cover at most two participants |
| VirtualChannels.HubShareIsTotal | client/virtual_channel.go:308-335 | what the two maps bring to the hub depends on the row's total only |
| VirtualChannels.HubNetSum | client/virtual_channel_settlement.go:128-145 | over both parents the hub gains what the maps at settlement bring it of the final state, less the whole initial total, whatever those maps are |
| VirtualChannels.HubNeutrality | client/virtual_channel_settlement.go:128-145 | matched fundings settled with one final state, while the entries' maps bring the hub both participants' balances, change the hub's holdings over both parents by zero in every asset |
| VirtualChannels.SettleMapsExact | client/virtual_channel_settlement.go:128-145 | for all maps of two participants: the hub gets a locked amount back under every final state exactly if the last participants that the maps send to it exist and differ |
| VirtualChannels.MatchingIsExact | client/virtual_channel.go:308-335 | for injective maps of two participants the matching check holds exactly if the hub gets everything back |
| VirtualChannels.MapRewriteAccepted | client/update.go:429-443 | rewriting an entry's index map is a valid transition and passes the two-party check |
| VirtualChannels.RewrittenMapUncovers | channel/allocation.go:612-626 | maps that pass the check; a rewriting after which the hub gets nothing back; one with repeated targets that passes the check and gives the hub twice the total |
| VirtualChannels.FundingHonestIff | client/virtual_channel.go:231-291 | every accepted funding of a two-party parent proposes the honest allocation exactly if assets, dimensions, the Locked list and the hub's own balances are the honest ones |
| VirtualChannels.UnevenFundingAccepted | client/virtual_channel.go:231-291 | an accepted funding in which only the hub pays |
| VirtualChannels.ShiftedFundingAccepted | client/virtual_channel.go:231-291 | an accepted funding in which the hub also pays into another channel's entry, while the other participant pays the honest amount |
| VirtualChannels.CrossedFundingAccepted | client/virtual_channel.go:231-291 | an accepted funding whose entry carries another map than the proposal |
| VirtualChannels.SettlementHonestIff | client/virtual_channel_settlement.go:97-148 | an accepted settlement proposes the honest allocation exactly if assets and all other entries stay |
| VirtualChannels.ShiftedSettlementAccepted | client/virtual_channel_settlement.go:97-148 | an accepted settlement that moves another channel's entry to an unknown ID |
| Settlement.AcceptedMeansSigned | client/virtual_channel_settlement.go:107-119 | an accepted settlement or funding has no slot beyond the participants, and every slot verifies for its participant |
| Settlement.ShortListAccepted | client/virtual_channel_settlement.go:107-119 | an accepted settlement stays accepted with signatures cut off at the end |
| Settlement.ForceFinalState | client/virtual_channel_settlement.go:211-221 | the forced final update succeeds exactly with one verifying signature per participant and a final state, which then is the current one; otherwise the current transaction stays |
| Settlement.MatchSettlement | client/virtual_channel_settlement.go:171-209 | settlements match exactly if all show one final state that can be forced; the virtual channel is never removed |
| Settlement.ForceCatchesShortLists | client/virtual_channel_settlement.go:211-221 | for an accepted settlement the forced update succeeds exactly if no signature is missing and the state is final |
| Settlement.SettledStateWasSigned | client/virtual_channel_settlement.go:97-119 | a fully signed accepted settlement shows a state that both honest participants signed, at most one version ahead of either's current state |
| Settlement.FundedStateWasSigned | client/virtual_channel.go:244-257 | so does a fully signed accepted funding |
| Settlement.SettlementPays | client/virtual_channel_settlement.go:128-145 | an accepted settlement pays each participant its final balance at its place and nobody else; the entry held the channel's totals and is gone |
| Settlement.FundingLocks | client/virtual_channel.go:231-291 | an accepted funding is of a virtual channel under its own ID that locks nothing, with a place per participant; its entry holds the channel's totals and the parent has what the entry's map takes |
| Hubs.StepKeepsInv | client/virtual_channel.go:293-335 | every matching, funding, settlement and ordinary update keeps: each funded side of a virtual channel has its entry with the channel's total in that parent, and its map unless an update rewrites it |
| Hubs.StepConserves | client/virtual_channel_settlement.go:28-68 | no step but an ordinary update changes the hub's holdings over all parents together with what is outstanding in virtual channels |
| Hubs.BooksBalance | client/virtual_channel.go:51-99 | after every run holdings and outstanding amounts are what the hub started with and its gains from ordinary updates |
| Hubs.OpenOutstanding | client/virtual_channel.go:308-335 | while both sides are funded the hub has exactly the whole of the virtual channel outstanding |
| Hubs.CompletedOutstanding | client/virtual_channel_settlement.go:150-205 | nothing is outstanding of a channel settled on both sides with maps that bring the hub everything, whatever its final state |
| Hubs.HubComesOutWhole | client/virtual_channel_settlement.go:150-205 | after every run at whose end all virtual channels are settled with such maps, the hub's holdings have changed by its gains from ordinary updates only |
| Hubs.HubComesOutWholeWithMaps | client/virtual_channel_settlement.go:150-205 | so it is of every run in which no update rewrites an index map |
| Hubs.SettlementNeverRefused | client/virtual_channel_settlement.go:28-68 | in such a run no panic of the settlement of a funded side is hit |
| HubLife.VirtualChannelLives | client/virtual_channel_settlement.go:150-209 | every virtual channel whose parents can pay and whose maps pass the check can be opened, brought to any final division and settled in both parents; each participant gains at its places what it gained in the channel |
| Payments.ValidTransition | apps/payment/app.go:45-57 | accepts exactly if only the actor's balances shrink and only the others' grow; panics exactly on app data or if the first bad place, asset by asset, is missing in the new state |
| Payments.ActorPays | apps/payment/app.go:45-57 | in an accepted step what the actor pays equals what the others gain plus what is newly locked |
| Payments.NonActorNeverLoses | channel/statemachine.go:133-145 | in every off-chain run of a payment channel a participant who is never the actor never loses any asset |
| Transfers.PaymentIff | apps/payment/app.go:45-57 | a payment of x is a next state exactly if x is zero, or the payer is the actor and has x |
| Transfers.PaymentGoesThrough | client/update.go:164-414 | in a two-party payment channel at rest, paying goes through exactly if the payer has the amount, and taking never does |
| Codec.LittleEndianRoundTrip | pkg/io/serialize.go:31-60 | fixed-width numbers are read back |
| Codec.BigBytesRoundTrip | pkg/io/bigint.go:34-86 | big-endian bytes give the number back, without leading zero |
| Codec.BigIntRoundTrip | pkg/io/bigint.go:34-86 | numbers of at most 128 bytes survive and leave what follows untouched |
| Codec.Stream.EncodeBigInt | pkg/io/bigint.go:59-86 | writes exactly the specified bytes, or fails if too long |
| Codec.Stream.DecodeBigInt | pkg/io/bigint.go:34-56 | reads exactly what the decoder specifies |
| Codec.ManyRoundTrip | channel/allocation.go:230-349 | a list of values that each survive survives |
| Formats.UintWeights | pkg/io/serialize.go:31-60 | fixed-width numbers are written least significant byte first |
| Formats.BigWeights | pkg/io/bigint.go:34-86 | big numbers are written most significant byte first |
| Formats.BigIntShortest | pkg/io/bigint.go:34-86 | the written encoding of a number is the shortest that decodes to it, and the only one of its length |
| Formats.DecodedAllocation | channel/allocation.go:262-293 | every decoded allocation is within the limits of Valid |
| Formats.DecodedParams | channel/params.go:186-214 | every decoded parameter set is one that NewParams accepts, with the calculated ID |
| Formats.DecodedSigs | wallet/sig.go:84-107 | every decoded list has a slot per participant, empty or of the fixed length |
| Formats.EncodableSurvives | channel/allocation.go:228-293 | every allocation that can be encoded at all, with 16-bit index maps, survives |
| Formats.SampleTransactionBytes | channel/transaction.go:44-78 | all bytes of one transaction with app, data, locked funds, index map and a missing signature |
| SparseSigs.BuildMask | wallet/sig.go:58-70 | bit i of the mask, least significant first in each byte, tells whether signature i is present |
| SparseSigs.MaskBit | wallet/sig.go:58-70 | every bit of the mask is the presence of its signature |
| SparseSigs.EncodeSparseSigs | wallet/sig.go:58-81 | writes the mask and the present signatures in order |
| SparseSigs.DecodeSparseSigs | wallet/sig.go:84-107 | the nested loops read exactly what the decoder specifies |
| SparseSigs.SparseSigsRoundTrip | wallet/sig.go:58-107 | every list of fixed-length or missing signatures survives, followed by any bytes |
| Wire.SubAllocRoundTrip | channel/allocation.go:546-608 | sub-allocations survive, index maps included |
| Wire.BalancesRoundTrip | channel/allocation.go:296-349 | balances survive |
| Wire.AllocationRoundTrip | channel/allocation.go:230-293 | valid allocations survive |
| Wire.StateRoundTrip | channel/state.go:106-121 | states survive, with whatever data their app reads back |
| Wire.TransactionRoundTrip | channel/transaction.go:44-78 | decoding an encoded transaction followed by any bytes gives the transaction and exactly those bytes |
| Wire.ParamsRoundTrip | channel/params.go:173-214 | parameters survive and get their ID back |
| Wire.AddressesRoundTrip | wallet/address.go:81-120 | address lists with length survive |
| Keys.IncPrefixInPlace | pkg/sortedkv/key/key.go:30-47 | the in-place increment drops trailing 0xff bytes and increments the last other byte; empty if none |
| Keys.PrefixRangeExact | pkg/sortedkv/key/key.go:30-47 | a key lies between p and IncPrefix(p) exactly if p is its prefix |
| Keys.EnumerationUnique | pkg/sortedkv/memorydb/database.go:130-192 | a set of keys has one sorted listing only |
| Keys.SortKeys | pkg/sortedkv/memorydb/database.go:130-192 | sorting yields the same keys in strictly ascending order |
| Store.MemoryDb.Has | pkg/sortedkv/memorydb/database.go:64-70 | tells exactly whether the key is there |
| Store.MemoryDb.Put | pkg/sortedkv/memorydb/database.go:93-99 | the key has the value and nothing else changes |
| Store.MemoryDb.Delete | pkg/sortedkv/memorydb/database.go:107-116 | the key goes; failure exactly if it was not there |
| Store.MemoryDb.NewIteratorWithRange | pkg/sortedkv/memorydb/database.go:148-173 | lists exactly the entries of the range in key order |
| Store.MemoryDb.NewIteratorWithPrefix | pkg/sortedkv/memorydb/database.go:176-192 | lists exactly the entries with the prefix in key order |
| Store.PrefixListing | pkg/sortedkv/memorydb/database.go:176-192 | a prefix listing has exactly the stored keys that continue the prefix, and is the range up to its increment |
| Store.BatchIsReplay | pkg/sortedkv/memorydb/batch.go:29-63 | all gathered writes and then all deletes equal the operations in their order |
| Store.Batch.Apply | pkg/sortedkv/memorydb/batch.go:48-63 | succeeds exactly if all keys to delete exist, and then equals replaying the batch; a failed one leaves all writes in and some of the deletions |
| Store.Batch.Reset | pkg/sortedkv/memorydb/batch.go:66-69 | the batch is as new |
| Store.TableWrite | pkg/sortedkv/table.go:35-67 | a write through a table is that write on the map the table stands for |
| Store.TablesAreIndependent | pkg/sortedkv/table.go:35-67 | tables with incomparable prefixes do not see each other's writes |
| Store.TableReplay | pkg/sortedkv/tablebatch.go:24-41 | a table's batch is replayed on the table's map only |
| Store.TableRange | pkg/sortedkv/table.go:80-89 | the database range a table asks for is exactly the range of the table's map |
| Store.Table.NewIteratorWithRange | pkg/sortedkv/table.go:80-89 | lists exactly the sorted range of the table's map |
| Store.Table.NewIteratorWithPrefix | pkg/sortedkv/table.go:92-94 | lists exactly the entries of the table's map with the prefix |
| KeyLayout.SigKeyIndexRoundTrip | channel/persistence/keyvalue/persister.go:229-245 | a signature key decodes back to its index |
| KeyLayout.SigKeyIndexExact | channel/persistence/keyvalue/persister.go:229-245 | exactly the keys of the signature prefix and at least one digit have an index, the number that the digits write |
| KeyLayout.SigKeysAscend | channel/persistence/keyvalue/persister.go:74-77 | zero-padded signature keys ascend with their index |
| KeyLayout.ChannelKeysAscend | channel/persistence/keyvalue/restorer.go:182-202 | for every number of participants the keys in decoding order are strictly ascending |
| Persistence.FieldValueAt | channel/persistence/keyvalue/persister.go:190-212 | the value written under each key of the layout |
| Persistence.HoldsAfterPut | channel/persistence/keyvalue/persister.go:181-212 | writing some fields of a stored channel leaves exactly the channel with those fields new |
| Persistence.ValuesRoundTrip | channel/persistence/keyvalue/restorer.go:182-251 | decoding the values by position gives back everything that was written, whatever follows |
| Persistence.FailureHiddenIff | channel/persistence/keyvalue/restorer.go:196-201 | of a single restored channel: with a failed slot, decoding goes on to succeed without error exactly if the staged state decodes and is not empty, or the last non-empty slot decodes |
| Persistence.ChannelHidesFailureIff | channel/persistence/keyvalue/restorer.go:120-134 | the same of all values of a channel that is restored alone |
| Persistence.ShortSlotHidden | channel/persistence/keyvalue/restorer.go:196-201 | a slot too short for a signature next to a staged state is restored as no signature, without error |
| Restore.SortedValues | channel/persistence/keyvalue/restorer.go:182-202 | a sorted iterator yields a stored channel's values in decoding order |
| Restore.CreatedHolds | channel/persistence/keyvalue/persister.go:35-70 | creating a channel under an unused ID stores exactly its fields |
| Restore.OwnStepKeepsInv | channel/persistence/statemachine.go:44-193 | every persisted operation keeps store and machine in step |
| Restore.PutFieldsWithin | channel/persistence/keyvalue/persister.go:181-212 | writing fields of a channel changes the table below its ID only |
| Restore.CreatedWithin | channel/persistence/keyvalue/persister.go:35-70 | so does creating it, parent and peers included |
| Restore.OtherChannelsUntouched | channel/persistence/keyvalue/persister.go:261-263 | a write below one channel's ID changes nothing of any other channel |
| Restore.RestoreRefines | channel/persistence/statemachine.go:44-193 | after creation and any run, reading by key order yields the machine that ran the operations; each signature slot exactly if not left over |
| Leftovers.SlotRestoredIff | channel/persistence/keyvalue/persister.go:141-174 | after any run a restored slot is the machine's exactly if no event dropped a signature of the slot without a later one writing it |
| Leftovers.NothingLeftOver | channel/persistence/keyvalue/persister.go:141-149 | a slot from which no event drops a signature is restored as the machine has it |
| Leftovers.DroppedSignatureStays | channel/persistence/keyvalue/persister.go:141-149 | after dropping a signed staging transaction restoring yields the dropped signature, where the machine has none |
| Leftovers.SignatureOnDroppedState | channel/persistence/statemachine.go:116-193 | from every stored channel that can be updated: update, sign, discard, update again, and the restored own slot holds the signature on the discarded state next to the new one |
| Leftovers.SampleLeftover | channel/persistence/keyvalue/persister.go:141-149 | a concrete run from creation in which that signature does not verify for the restored state |
| Leftovers.RestoreKeepsSignatures | channel/machine.go:145-154 | with nothing left over the restored machine keeps the signature invariant |
| Leftovers.RestoredSignaturesValid | channel/machine.go:145-154 | so it is after every run from a new machine that leaves nothing behind |
| Leftovers.LeftoverIsHandedOut | channel/machine.go:206-221 | with a left-over own slot, Sig on the restored machine returns the left-over signature, where the machine would sign the staged state |
| Leftovers.DamagedSlotHidden | channel/persistence/keyvalue/restorer.go:196-201 | from every store that holds a channel with a staged state and a slot too short for a signature, the channel is restored without error and without that signature |
| Leftovers.SampleFailedSlot | channel/persistence/keyvalue/restorer.go:196-201 | a concrete store with a damaged slot, and its sorted iterator, that restores without error |
| Leftovers.UnnoticedAmongStored | client/restore.go:84-91 | a stored channel without staged state and with a failed last slot is an error alone and at the end, and goes unnoticed in front of another stored channel |
| Leftovers.SampleUnnoticed | client/restore.go:84-91 | concrete values of two such channels |
| ChannelIterators.ChannelIterator.RecoverFromEmptyIterator | channel/persistence/keyvalue/restorer.go:207-221 | drops the ended iterator; an error exactly if ending is not allowed |
| ChannelIterators.ChannelIterator.DecodeNext | channel/persistence/keyvalue/restorer.go:226-251 | reads one value from the first iterator that has one and decodes it whole |
| ChannelIterators.ChannelIterator.Next | channel/persistence/keyvalue/restorer.go:182-202 | total: ends if all iterators ended; an error if the fields in front of the slots do not decode; otherwise hands a channel out exactly if its staged state decodes, with an error pending exactly if that state is empty and the last non-empty slot failed; says what is read where values run short |
| ChannelIterators.ShortSlots | channel/persistence/keyvalue/restorer.go:196-221 | where a channel's values run short one slot is skipped with an error and the next iterator's values are read as slots |
| ChannelIterators.UnnoticedIff | client/restore.go:84-91 | in an iteration whose other channels are good, a failed slot of channel k goes unnoticed exactly if its staged state decodes and it is not empty, or the last non-empty slot decodes, or another channel follows |
| ChannelIterators.Iterate | client/restore.go:84-91 | the client's loop collects the channels in order up to the first that is not handed out, and Close reports no error exactly if all are handed out and the last leaves none pending |
| KeyValue.PersistRestorer.PutCall | channel/persistence/keyvalue/persister.go:141-179 | the channel table changes by exactly the fields of the call, or not at all; the peer table does not change |
| KeyValue.PersistRestorer.ChannelCreated | channel/persistence/keyvalue/persister.go:35-70 | the channel table gets the created channel and no other changes, the peer table exactly one entry per peer more; or nothing changes |
| KeyValue.PersistRestorer.RestoreChannel | channel/persistence/keyvalue/restorer.go:120-134 | yields exactly what the sorted values below the ID decode to, and fails if they do not decode |
| KeyValue.PersistedMachine.Persist | channel/persistence/statemachine.go:44-193 | the persister call never fails, the store follows the machine, no other channel and no peer entry changes |
| KeyValue.PersistedMachine.SetFunded | channel/persistence/statemachine.go:44-49 | machine and store move together |
| KeyValue.PersistedMachine.SetRegistering | channel/persistence/statemachine.go:53-58 | machine and store move together |
| KeyValue.PersistedMachine.SetRegistered | channel/persistence/statemachine.go:62-67 | machine and store move together |
| KeyValue.PersistedMachine.SetProgressing | channel/persistence/statemachine.go:71-76 | machine and store move together |
| KeyValue.PersistedMachine.SetProgressed | channel/persistence/statemachine.go:80-85 | machine and store move together |
| KeyValue.PersistedMachine.SetWithdrawing | channel/persistence/statemachine.go:89-94 | machine and store move together |
| KeyValue.PersistedMachine.Init | channel/persistence/statemachine.go:107-112 | machine and store move together |
| KeyValue.PersistedMachine.Update | channel/persistence/statemachine.go:116-125 | machine and store move together |
| KeyValue.PersistedMachine.ForceUpdate | channel/persistence/statemachine.go:129-138 | machine and store move together |
| KeyValue.PersistedMachine.Sig | channel/persistence/statemachine.go:142-148 | machine and store move together; the own signature is returned |
| KeyValue.PersistedMachine.AddSig | channel/persistence/statemachine.go:152-157 | machine and store move together |
| KeyValue.PersistedMachine.EnableInit | channel/persistence/statemachine.go:161-166 | machine and store move together |
| KeyValue.PersistedMachine.EnableUpdate | channel/persistence/statemachine.go:170-175 | machine and store move together |
| KeyValue.PersistedMachine.EnableFinal | channel/persistence/statemachine.go:179-184 | machine and store move together |
| KeyValue.PersistedMachine.DiscardUpdate | channel/persistence/statemachine.go:188-193 | machine and store move together |
| KeyValue.PersistedMachine.Do | channel/persistence/statemachine.go:44-193 | any operation but the removal: machine and store move together, nothing else changes |
| KeyValue.PersistedMachine.Restored | channel/persistence/keyvalue/restorer.go:120-134 | at any time restoring from the database yields this machine, whatever other channels are stored there |
| KeyValue.CreateChannel | channel/persistence/keyvalue/persister.go:35-70 | creating under an unused ID succeeds and starts store and machine in step |
| PeerRestore.RestorePeer | channel/persistence/keyvalue/restorer.go:86-106 | one iterator over each channel entered for the peer, in the order of the entries |
| PeerRestore.RestoreChannels | channel/persistence/keyvalue/restorer.go:86-106 | iterating restores each channel entered for the peer once, to the machine that was persisted |
| PeerRestore.PeerEntry | channel/persistence/keyvalue/persister.go:248-258 | the entry written at creation is the channel's ID below the prefix that RestorePeer reads |
| Clients.PeerTableCreated | channel/persistence/keyvalue/persister.go:54-64 | after creation the peer table has entries for exactly the channels and their peers |
| Clients.OthersKept | channel/persistence/keyvalue/persister.go:261-263 | a write below one channel's ID keeps the invariant of every other channel |
| Clients.TablesOnEveryRun | channel/persistence/keyvalue/persister.go:35-179 | in every run of creations and operations of any number of channels the tables hold each channel, its entries for its peers and nothing else |
| Clients.EveryChannelRestores | channel/persistence/keyvalue/restorer.go:120-134 | after every such run each channel is restored to its machine |
| Clients.Client.Open | channel/persistence/keyvalue/persister.go:35-70 | a further channel in the same database; all machines stay in step with it |
| Clients.Client.Operate | channel/persistence/statemachine.go:44-193 | an operation of one channel; all machines stay in step with the database |
| Clients.Client.RestoreOne | channel/persistence/keyvalue/restorer.go:120-134 | at any time each machine of the client is restored from the shared database |
| Clients.Client.Reconnect | channel/persistence/keyvalue/restorer.go:86-106 | restores exactly the channels that list the peer, each to its machine, in the order of their IDs |
| Tree.Gather | client/adjudicate.go:376-387 | the gathered list is the depth-first walk; an error exactly if a sub-channel is not registered |
| Tree.StateMap | client/adjudicate.go:391-398 | the map holds exactly the states of the walk by ID |
| Tree.ToEthSubStates | backend/ethereum/channel/adjudicator.go:184-197 | computes the flattening of the map; a missing state is the panic |
| Tree.CycleFreeIffRanked | client/adjudicate.go:326-345 | the recursion has a decreasing measure exactly if no channel is below itself; the number of channels below is one |
| Tree.RankDoesNotMatter | client/adjudicate.go:326-345 | the walk does not depend on the measure |
| Tree.FlatteningIsGathering | backend/ethereum/channel/adjudicator.go:184-197 | on every registry without cycles flattening the collected map gives the gathered list and never panics |
| Tree.WalkSucceedsIff | client/adjudicate.go:326-345 | the walk succeeds exactly if every channel below the root is registered |
| Tree.WalkCoversTree | client/adjudicate.go:326-345 | the walk visits exactly the channels reached by Locked links, and in a tree each once |
| Tree.TryLockRecursive | client/adjudicate.go:314-323 | succeeds exactly if the whole walk is registered, free and without repetition; then lists each mutex once in walk order |
| Tree.TreeIsLockable | client/adjudicate.go:314-323 | a registered tree with free mutexes can be locked |
| Endpoints.SameDecision | wire/net/endpoint_registry.go:336-346 | both sides decide against the same connection, the one dialed by the lesser address |
| Endpoints.NodeStepKeepsInv | wire/net/endpoint_registry.go:290-363 | every atomic step of a side keeps the tie-break invariant |
| Endpoints.TieBreakConverges | wire/net/endpoint_registry.go:290-363 | in every interleaving the greater address's connection is never closed, is in the slot once added, and the other is closed once both are settled |
| Endpoints.RunsSettle | wire/net/endpoint_registry.go:290-363 | at most 24 steps of a run do anything |
| Endpoints.SettledOnWinner | wire/net/endpoint_registry.go:290-363 | when adding both connections has begun on a side and no step is due, it uses the greater address's connection, which is open, and the other is closed and deleted |
| Endpoints.SettledAlone | wire/net/endpoint_registry.go:290-363 | a single connection is in use as soon as no step is due |
| Endpoints.FullEndpoint.Replace | wire/net/endpoint_registry.go:328-358 | undisturbed, replace is the compare-and-swap, decision and closing steps in turn |
| Endpoints.FullEndpoint.Delete | wire/net/endpoint_registry.go:361-363 | empties the slot exactly if it still holds the endpoint |
| Relays.Cache.Put | wire/cache.go:48-69 | in-place removal of ended predicates equals filtering; the envelope is kept exactly if an active predicate accepts it |
| Relays.Cache.Get | wire/cache.go:73-86 | in-place removal of matches equals filtering; matches come out in order |
| Relays.Cache.Cache | wire/cache.go:42-44 | the predicate is appended |
| Relays.Relay.Put | wire/relay.go:145-166 | does the put step: subscribers, else cache, else default handler |
| Relays.Relay.Subscribe | wire/relay.go:83-115 | does the subscribe step: refuses duplicates and closed consumers, hands over the cached matches |
| Relays.Relay.Delete | wire/relay.go:117-135 | does the delete step: the last subscription takes the deleted one's place |
| Relays.Relay.EnableCache | wire/relay.go:68-77 | enables caching and touches nothing else |
| Relays.DeliveredOnce | wire/relay.go:145-160 | an envelope goes exactly once to each subscriber whose predicate accepts it, and to nobody else |
| Relays.RelayConserves | wire/relay.go:83-166 | in every sequential run each envelope is in exactly one of delivered on arrival, cached, delivered later, default-handled; delivered later means to one subscriber; nobody receives one twice; nothing cached is wanted by a subscriber |
| RelayRuns.RemoveIsExact | wire/relay.go:117-135 | the remaining subscriptions are the old ones less the deleted one |
| RelayRuns.SubscribersOnEveryRun | wire/relay.go:83-135 | in every run the list holds exactly the consumers that subscribed successfully and were not deleted since, each once with its predicate |
| RelayRuns.ArrivalDecides | wire/relay.go:145-166 | an arriving envelope goes to exactly the subscribers that take it; with none it is cached exactly if an enabled and not ended predicate accepts it, and goes to the default handler otherwise |
| RelayRuns.DeletedGetsNothing | wire/relay.go:117-135 | after a deletion an envelope goes to exactly those it would have gone to, but for the deleted consumer |
| RelayRuns.PredicatesOnEveryRun | wire/cache.go:42-69 | in every run the cache's predicates are exactly those enabled and not ended since |
| RelayRuns.CacheOnEveryRun | wire/cache.go:48-86 | in every run the cache holds exactly the envelopes that were kept and not fetched by a new subscriber since |
| RelayRuns.ReceivedOnEveryRun | wire/relay.go:83-166 | in every run a consumer has received exactly the envelopes that arrived while it was subscribed and took them, and those it fetched from the cache |
| Relays.HandedOverInOrder | wire/cache.go:73-86 | cached envelopes are handed over in order of arrival |

## Left out

- Cryptography, hashing and address formats: signatures are functions with one law, addresses and signatures have fixed lengths on the wire.
- Contract bindings, event subscriptions, funding and withdrawal transactions, block timeouts: foreign calls and blockchain I/O.
- TCP and Unix dialers and listeners, the address exchange, the bus, LevelDB: I/O plumbing.
- Contexts, timers, logging and error texts: failure is a step that may happen, and errors carry no text.
- Mutexes: a held machine lock is an atomic section; the update handler is taken to be answered while the lock is held.
- The app registry: every app definition on the wire resolves to its app.
- ActionMachine, wallets, proposal options, the mock app: they would add only easy members.
- client/sync.go: unused in the repository.
- Control flow of the virtual-channel handlers after a rejection and the state watcher's timing: only the checks, the states they build and the matching of settlements are modelled.
- Settlement.MatchSettlement: looking the channel up, accepting the parents' updates and closing the virtual channel are left out.
- Settlement.SettledStateWasSigned: assumes that a signature that verifies was made by its participant, and honest off-chain runs of both.
- ChannelRemoved, and RestoreAll after it: ChannelRemoved leaves the `parent` key behind, so what it leaves does not decode.
- ActivePeers, and RestoreAll: the values of all channels in one iterator.
- Floating point: the width of signature keys is the least w with n <= 10^w, where the source computes ceil(log10 n) in floats.
- Relay after Close, and concurrent Put: the relay is used sequentially; the goroutine that hands cached envelopes to a new subscriber is taken to run at once.
- More than two connections between the same two peers, and the dialing map that lets concurrent Get calls share one dial.
- Conservation.TreeConservation: assumes that ordinary updates keep the numbers of assets and participants, which the source does not check.
- Divergence.BoundedDivergence: assumes versions below the wrap-around at 2^64, on-chain progression with the next version, and unforged signatures.
- Restore.RestoreRefines: assumes updates with encodable states of constant dimensions, app data that the app reads back, and signatures of the fixed length.
- Updates.Channel.HandleUpdateAcc: registering the settlement of a final sub-channel at its parent is not part of the step; the filter it registers is SubChannels.SettlementFilter.
- ChannelIterators.ChannelIterator.RecoverFromEmptyIterator: closing an iterator never fails, as in the memory database.
- ChannelIterators.ChannelIterator.Next: does not say where the iterators stand after the fields in front of the slots failed to decode.
- ChannelIterators.Iterate: every iterator has the values of one channel or a bad head; a channel whose slots run short is covered by Next and ShortSlots only.
- Hubs.HubComesOutWhole: parents have two participants, proposals are the honest ones (FundingHonestIff and SettlementHonestIff say exactly when accepted ones are), final states lock nothing, and ordinary updates keep the dimensions.
- TreeUpdates.FundingKeepsTreeIff: the update keeps the dimensions of the parent, which the source does not check.
- TreeUpdates.SettlementKeepsTreeIff: the same.
- Payments.ActorPays: assumes that the number of participants does not change in the step.
