# Off-chain state channels: a verified model

A Dafny model of the state channel engine in `packages/node`: the channel ledger, the signing protocols that move it
from state to state, the delivery of their messages, and the locks that serialise them. The proofs are about every
input, every run and every interleaving of the model; `dafny verify dfyconfig.toml` checks them all.

## How the system is modelled

**The ledger.** `StateChannel` is an immutable value, as in the source. Its Maps, and plain objects of amounts, are
association lists in insertion order, because states are hashed in that order; their keys are addresses and hashes,
which begin with `0x` and so are never listed by number. A ghost `locked` amount for each app and agreement stands beside the channel
where money is counted (`LedgerRuns`). `FreeBalanceClass` is a class with the two fields that its methods update.
JavaScript errors are `Result` values.

**Symbols.** Hashes are free constructors of what is hashed, so distinct contents have distinct hashes: an app identity is its number
and its participants, nothing else; a multisig is its sorted owners; a commitment is what its `hashToSign` covers. Key
derivation is a function parameter, and a signature names its signer, key index and commitment. What the chain answers (block number,
outcome, balance) is a parameter.

**Protocols.** A generator is a script: what it signs, sends, waits for, checks, stores and saves, step by step
(`Engine`). A party has a program counter and its own store, and stops anywhere: a wait times out, a check throws, the
process dies. The network drops, delays, duplicates, replays and mixes signatures, knows some from before, and signs for every
party that is not honest; it cannot forge. Each protocol's plan is computed from the party's own copy of the
channels, so what two honest parties sign may differ; that they agree whenever somebody saves is a theorem.

**Messages.** `Delivery` is about routing by process ID, over a network that delivers each message at most once. **Locks.**
`LockQueues` gives every step of p-queue with concurrency 1 that matters here; `ProcessQueues` is the object.

## Where to start reading

- Money: `LedgerRuns.RunConserves`, `MoneyRuns.MoneyAccounted`, `DirectApps.FixedOutcomePays`, `WithdrawProtocol.WithdrawalCompletes`,
  `Deposits.DepositEndToEnd`.
- Virtual apps: `VirtualAgreement.InstallAgreement` and `UninstallAgreement`, `VirtualConservation.IntermediaryNeutral`, and
  `VirtualEndToEnd.WholeLife` and `FixedLife`, which put agreement, progress, protocols and money together.
- Signing and saving over all runs: `InstallProtocol.InitiatorSavesFirst`, `WithdrawProtocol.SavesWhatIsSigned`,
  `InstallVirtualProtocol.NobodySavesAlone`, `UninstallVirtualProtocol.SavesInOrder`.
- Messages and locks: `Delivery` and `LockQueues`, from the end of each file backwards.

## Where the code departs from what is said of it

- The specification of virtual apps says that the intermediary takes no risk whatever the outcome
  (`packages/specs/source/protocols/install-virtual-app.md:5`). With a fixed two-party outcome the code pays players by
  numbered addresses and credits 0th addresses, and the intermediary loses the capital, in runs in which every check passes: `VirtualExamples.IntermediaryLosesTwo` is one, and
  `VirtualEndToEnd.FixedLife` says for all inputs when it is restored instead.
- The three roles' uninstalls agree on a fixed outcome exactly when the players of the virtual app and of the pass-through app
  make the same shares of the users' 0th addresses (`VirtualFixedOutcomes.FixedOutcomesAgreeIff`). An app with number 0 would break
  this (`VirtualExamples.RolesDisagree`); proposals and three-party channels, which count from one, do not (`NumberedSharesAgree`).
- `mostRecentlyInstalledAppInstance` returns the app with the greatest number, not the one installed last
  (`WithdrawTransitions.MostRecentIsNew`), so that installing two proposals in reverse order commits to the wrong app
  (`LedgerExamples.ReverseInstallCommitsToOther`).
- A refund app takes the current number without moving the counter, and replaces a live app with that number
  (`WithdrawTransitions.WithdrawKeepsAppsIff`, `Deposits.DepositEndToEnd`): an ordinary run is enough
  (`LedgerExamples.WithdrawalTakesApp`, `DepositTakesApp`).
- The intermediary of an install stores one commitment with signatures on another
  (`InstallVirtualProtocol.IntermediaryStoresProperlyButOnce`), and never stores the initiator's update.
- At uninstall the pass-through app is committed to with its sequence number in place of a version number; the model does the same and claims nothing about that version.
- A task that names a lock twice waits for itself (`LockQueues.NamedTwiceNeverRuns`).
- The specification lets the conditional transactions of a virtual app point to the virtual app; the code points them to the pass-through app, and so does the model.

## Model

| member | source | states |
|---|---|---|
| Amounts.Flip | packages/node/src/ethereum/utils/free-balance-app.ts:44-58 | negating an object of amounts negates every amount and the total, and keeps the keys |
| Amounts.Merged | packages/node/src/ethereum/utils/free-balance-app.ts:60-74 | merging adds amount by amount over the union of the keys, an absent key counting as zero |
| Amounts.MergedTotal | packages/node/src/ethereum/utils/free-balance-app.ts:60-74 | merging adds the totals: no amount is lost or counted twice |
| Amounts.MergeFlipRestores | packages/node/src/ethereum/utils/free-balance-app.ts:44-74 | merging an increment and then its negation gives back every amount |
| FreeBalanceObjects.Merge | packages/node/src/ethereum/utils/free-balance-app.ts:60-74 | the loop over the union of both key sets computes exactly the merge, keys in the same order |
| Dictionaries.EntriesRoundTrip | packages/node/src/models/free-balance.ts:286-305 | an object of amounts, listed as coin transfers and rebuilt, is the same object in the same order |
| Dictionaries.ListRoundTripIff | packages/node/src/models/free-balance.ts:286-305 | a list of coin transfers survives becoming an object exactly when no recipient occurs twice |
| FreeBalances.IncrementSpec | packages/node/src/models/free-balance.ts:180-203 | an increment throws exactly when some token would be left with a negative amount; otherwise each incremented token holds the merge, and every other token its old list |
| FreeBalances.IncrementAdds | packages/node/src/models/free-balance.ts:180-203 | a successful increment adds pointwise to every balance and to the total of every token |
| FreeBalances.IncrementNonNegative | packages/node/src/models/free-balance.ts:180-203 | on non-negative balances it succeeds exactly when every resulting balance is non-negative, and they stay so |
| FreeBalances.FlipTokenIndexedBalances | packages/node/src/ethereum/utils/free-balance-app.ts:29-42 | every amount of every token negated, the same tokens present |
| FreeBalances.SerializeRoundTrip | packages/node/src/models/free-balance.ts:246-284 | a free balance survives serialising and deserialising, with the order of tokens, recipients and active apps that its hash depends on |
| FreeBalanceObjects.FreeBalanceClass.constructor | packages/node/src/models/free-balance.ts:119-127 | the object starts with exactly the given state; that it owns its copy is because states are values here, where the source deserialises a new object |
| FreeBalanceObjects.FreeBalanceClass.Increment | packages/node/src/models/free-balance.ts:180-203 | the loop agrees with the pure increment; when it throws, exactly the tokens before the offending one have been written to this object |
| FreeBalanceObjects.FreeBalanceClass.AddActiveApp | packages/node/src/models/free-balance.ts:162-165 | only the active set changes, and only by this app |
| FreeBalanceObjects.FreeBalanceClass.RemoveActiveApp | packages/node/src/models/free-balance.ts:157-160 | only the active set changes, and only by this app |
| FreeBalanceObjects.FreeBalanceClass.GetBalance | packages/node/src/models/free-balance.ts:129-137 | undefined exactly when the token or the beneficiary is absent, otherwise the balance |
| FreeBalanceObjects.FreeBalanceClass.WithTokenAddress | packages/node/src/models/free-balance.ts:139-155 | the amounts of a token; for a token without any, zero for exactly the ETH recipients |
| StateChannels.SetFreeBalance | packages/node/src/models/state-channel.ts:288-294 | what is written to the free balance app is what is read back |
| StateChannels.AddActiveSpec | packages/node/src/models/state-channel.ts:270-277 | activating and incrementing changes nothing but these two things, moves the free balance by two versions, and fails exactly when the increment does |
| StateChannels.RemoveActiveSpec | packages/node/src/models/state-channel.ts:279-286 | the same for deactivating |
| LedgerRuns.ApplySucceeds | packages/node/src/models/state-channel.ts:384-501 | an operation of the ledger goes through exactly when its app or agreement exists, the participants are the channel's and no balance becomes negative |
| LedgerRuns.ApplyEffect | packages/node/src/models/state-channel.ts:398-501 | which apps are active afterwards and how each balance has changed |
| LedgerRuns.RunKeepsValid | packages/node/src/models/state-channel.ts:334-501 | in every run, throws included: active are exactly the installed direct apps and the agreements, kept apart; everything is stored under its own identity; no number is ahead of the counter; no balance is negative |
| LedgerRuns.NextProposalIsFresh | packages/node/src/models/state-channel.ts:137-144 | the next proposal has an identity not in use, and once stored it is the most recently proposed |
| LedgerRuns.StepAccounts | packages/node/src/models/state-channel.ts:398-501 | every operation on any ledger changes free plus locked money of each token by exactly what it pays beyond what was locked; installing under a live identity loses what was locked there |
| LedgerRuns.RunAccounts | packages/node/src/models/state-channel.ts:398-501 | the same over every run, admissible or not |
| LedgerRuns.RunConserves | packages/node/src/models/state-channel.ts:443-501 | with fresh identities and outcomes that total what was locked, no run creates or destroys money of any token |
| LedgerRuns.SetupValid | packages/node/src/models/state-channel.ts:296-315 | a channel from setup satisfies the invariants and holds nothing |
| MoneyRuns.MoneyAccounted | packages/node/src/models/state-channel.ts:384-501 | over every run of operations, deposits and withdrawals, throws included, with fresh refund identities and outcomes that total what was locked: free plus locked money is what there was plus deposits less withdrawals, and the ledger stays valid |
| MoneyRuns.MoneySinceSetup | packages/node/src/models/state-channel.ts:296-315 | from setup on, the money there is is what was deposited less what was withdrawn |
| MoneyRuns.WithdrawalGains | packages/node/src/engine/withdraw.ts:203-222 | a withdrawal, as an install and an uninstall of its refund app, takes exactly its amount out of free plus locked money |
| MoneyRuns.DepositGains | packages/node/src/methods/state-channel/deposit/operation.ts:35-177 | a deposit brings in exactly what the app contract says arrived |
| Stores.JsonRoundTrip | packages/node/src/models/state-channel.ts:518-569 | a channel survives being stored and read back; a stored form survives exactly when its lists name nothing twice |
| Outcomes.TwoPartyPaysAmount | packages/node/src/engine/utils/get-outcome-increments.ts:116-146 | whatever the fixed outcome, odd amounts included, the payments to two players add up to exactly the amount, in its token; for equal players exactly unless it is split |
| Payouts.SplitEvenly | packages/node/src/engine/utils/get-outcome-increments.ts:135-144 | two players who split an amount get both halves of it: they add up to the amount, and the second gets at most one more, away from zero when the amount is odd |
| Payouts.SplitExamples | packages/node/src/engine/utils/get-outcome-increments.ts:135-144 | ten is split into five and five, eleven into five and six, and a debt of eleven into -5 and -6 |
| Payouts.MultiAssetPays | packages/node/src/engine/utils/get-outcome-increments.ts:148-165 | the n-th list is paid in the n-th token, to each recipient what its last entry says; a missing list pays nothing |
| Payouts.IncrementsPay | packages/node/src/engine/utils/get-outcome-increments.ts:27-69 | what the increments of an app pay to an address in a token, for every outcome type: the players' parts, the two transfers, one list for each token, the first transfer of a refund app |
| Outcomes.PairTotal | packages/node/src/engine/utils/get-outcome-increments.ts:167-184 | two transfers in one object add up exactly when the recipients differ or the overwritten amount is zero |
| Outcomes.HandleRefundApp | packages/node/src/engine/utils/get-outcome-increments.ts:84-114 | up to ten answers of the chain are looked at and the first positive one is credited; it throws exactly when none is |
| InstallTransitions.TransitionSpec | packages/node/src/engine/install.ts:301-403 | installing puts in and activates one app and decrements the free balance, nothing else |
| InstallTransitions.DecrementsDebit | packages/node/src/engine/install.ts:354-379 | with one token or two, the decrements are each party's deposit in its own token |
| InstallTransitions.InstallDebits | packages/node/src/engine/install.ts:354-379 | each party is debited exactly its own deposit in its own token, nobody else anything, and the total accordingly |
| InstallTransitions.InstalledApp | packages/node/src/engine/install.ts:319-352 | the app that is installed starts in the initial state at version 0, with the parties' keys, interface and default timeout, and pays out by the parties' 0th addresses: the initiator as first player, the tokens of the deposits, each limit what is locked in its token |
| InstallTransitions.TwoPartyOutcomeConserves | packages/node/src/engine/install.ts:420-438 | the totals of every token are the same after the increments of a two-party fixed outcome have been credited in any later channel; who gets them is `DirectApps.FixedOutcomePays` |
| DirectApps.UninstallPays | packages/node/src/engine/uninstall.ts:141-155 | when the uninstall protocol's computation goes through, every balance is the old one and what the app's outcome pays that address in that token; the app is gone, and the commitment to be signed is on exactly these balances |
| DirectApps.FixedOutcomePays | packages/node/src/engine/install.ts:420-438 | from the install protocol to the uninstall protocol, whatever happened in between: outcome 0 gains the initiator the responder's stake and outcome 1 loses it its own, the responder the mirror of it; any other splits the stakes evenly; nobody else gains or loses anything in any token |
| DirectApps.FixedOutcomeConserves | packages/node/src/engine/uninstall.ts:141-155 | and no money of any token is made or lost |
| DirectApps.TransfersPay | packages/node/src/engine/install.ts:467-489 | likewise for two coin transfers: each party gains what it is transferred in the token staked, less its stake |
| DirectApps.ListsPay | packages/node/src/engine/install.ts:441-465 | and for lists: the first is in the initiator's token, the second in the responder's if that is another one |
| DirectApps.LimitsAreLocked | packages/node/src/engine/install.ts:441-489 | an app's limits are what its install takes out of the free balance in each of its tokens, unless the limit is disabled |
| ProposeTransitions.ProposeThenInstall | packages/node/src/methods/app-instance/install/operation.ts:24-42 | when the proposed-to party installs from its mirrored copy, the installed app is the one proposed, identity, initial state, interface, timeouts and terms; the proposer is debited its own proposed deposit in its own token and the other party its own |
| ProposeTransitions.ProposalsMirror | packages/node/src/engine/propose.ts:50-73 | both copies have one identity and mirror each other; both would install alike exactly when the two deposits and tokens coincide |
| WithdrawTransitions.MostRecentIsGreatest | packages/node/src/models/state-channel.ts:128-135 | the most recently installed app is an installed app with the greatest number |
| WithdrawTransitions.MostRecentIsNew | packages/node/src/models/state-channel.ts:128-135 | right after an install it is the new app exactly when that has a greater number than every other |
| WithdrawTransitions.RefundAppIsMostRecentAnyway | packages/node/src/engine/withdraw.ts:560-578 | a refund app is always the one that the conditional transaction is made for; its identity is new exactly when no installed app has the current number |
| WithdrawTransitions.WithdrawEndToEnd | packages/node/src/engine/withdraw.ts:203-222 | with a free number: exactly `amount` of one token leaves the initiator's balance, all else stays, four versions later, and it cannot fail half way |
| WithdrawTransitions.WithdrawSpec | packages/node/src/engine/withdraw.ts:501-545 | free number or not: which apps and active apps are left and what is debited in total |
| WithdrawTransitions.WithdrawKeepsAppsIff | packages/node/src/engine/withdraw.ts:526 | the apps survive a withdrawal exactly when no installed app has the current number, which the refund app takes without moving the counter |
| Deposits.RefundInstallSpec | packages/node/src/methods/state-channel/deposit/operation.ts:63-86 | installing the refund app for a deposit changes no balance |
| Deposits.DepositEndToEnd | packages/node/src/methods/state-channel/deposit/operation.ts:35-177 | a deposit credits exactly what arrived, in its token, to the recipient named, four versions later; the apps survive exactly when no installed app has the current number |
| Deposits.RefundsDepositor | packages/node/src/methods/state-channel/deposit/operation.ts:197-202 | the refund app's state names the depositor, the multisig and the threshold: the app contract's answer is what the multisig holds beyond the threshold, to the depositor's 0th address |
| Deposits.DepositCreditsDepositor | packages/node/src/methods/state-channel/deposit/operation.ts:35-177 | so a deposit after which the multisig holds d more than the threshold credits the depositor exactly d |
| Deposits.KindFoundIff | packages/node/src/models/state-channel.ts:146-158 | the lookup of the refund app by its address finds the app exactly when one installed app has it, and throws when none or several have |
| LedgerExamples.WithdrawalTakesApp | packages/node/src/engine/withdraw.ts:526 | an input: setup, a proposal, its install and a withdrawal, after which the installed app is gone |
| LedgerExamples.DepositTakesApp | packages/node/src/methods/state-channel/deposit/operation.ts:76 | the same with a deposit |
| LedgerExamples.ReverseInstallCommitsToOther | packages/node/src/engine/install.ts:507-524 | an input: two proposals installed in reverse order, where the second conditional transaction is for the app installed first |
| Deposits.MakeDeposit | packages/node/src/methods/state-channel/deposit/operation.ts:107-136 | at most three attempts, none repeated after it was declined, and success exactly when the last one was sent |
| Sorting.SortCanonical | packages/node/src/utils/index.ts:49-60 | sorting by distinct ranks gives the one ascending arrangement, whatever the order of the input |
| Sorting.SortAddressesCanonical | packages/node/src/engine/xkeys.ts:18-20 | the same for addresses |
| StateChannels.OwnerFoundIff | packages/node/src/models/state-channel.ts:190-202 | a party's signing address is found among two owners exactly when its 0th address is one of theirs |
| Commitments.SignedFormIsCanonical | packages/node/src/ethereum/multisig-commitment.ts:26-46 | parties that pass the same signatures in any order build identical signed transactions, signers ascending |
| Commitments.CountersignedAlike | packages/node/src/ethereum/set-state-commitment.ts:60-72 | the two parties of a commitment, passing mine and theirs in opposite orders, build the same properly signed transaction |
| KeyCaches.KeyCache.XkeyKthAddress | packages/node/src/engine/xkeys.ts:28-40 | the two-level cache always answers with the derived address |
| KeyCaches.KeyCache.XkeysToSortedKthAddresses | packages/node/src/engine/xkeys.ts:52-57 | the sorted k-th addresses of the keys |
| KeyCaches.KeyCache.GetCreate2MultisigAddress | packages/node/src/utils/create2-address.ts:30-65 | the cached address is the multisig of the owners |
| KeyCaches.OwnersInWhateverOrder | packages/node/src/utils/create2-address.ts:36-62 | owners in any order have one multisig address |
| Stores.Store.SaveStateChannel | packages/node/src/store.ts:111-116 | the channel replaces the one under its own address, and no other |
| Stores.Store.GetMultisigAddressFromAppInstance | packages/node/src/store.ts:91-105 | the loop returns the first stored channel that has the app |
| Stores.FindsTheChannel | packages/node/src/store.ts:91-105 | in a store as saving leaves it, the lookup finds a channel with the app, and throws only when there is none |
| Stores.LastSaveCounts | packages/node/src/store.ts:111-116 | in every run of saves each channel stands under its own address, and under an address the channel saved for it last |
| Stores.Store.GetAppInstanceProposal | packages/node/src/store.ts:144-166 | the proposal of the first stored channel with the app under any heading; it throws exactly when there is no such channel or that one has no such proposal |
| VirtualAgreement.InstallAgreement | packages/node/src/engine/install-virtual-app.ts:995-1284 | from agreeing copies the three roles, each with its own function, compute equal channels and one pass-through app; intermediary and responder get through together |
| VirtualAgreement.UninstallAgreement | packages/node/src/engine/uninstall-virtual-app.ts:534-877 | likewise at uninstall, for coin transfers and fixed outcomes, each role with a different app instance and at its own block, when the outcome asked for is the virtual app's and, if fixed, pays both users alike by the players of either app; the intermediary gets through exactly when both endpoints do, and what they agree on is in `VirtualChanges` |
| VirtualConservation.UninstallAgreementIff | packages/node/src/engine/uninstall-virtual-app.ts:534-877 | when all three go through they agree exactly then |
| VirtualConservation.InstallMoves | packages/node/src/engine/install-virtual-app.ts:1149-1191 | at install each endpoint is debited its stake and the intermediary, in each channel, the other endpoint's; nothing else moves |
| VirtualChanges.InitiatorAdds | packages/node/src/engine/install-virtual-app.ts:995-1081 | the initiator's install puts the virtual app in the users' channel, in its initial state at version 0, a pass-through app that pays the virtual app's default outcome in that of all three, and in the one with the intermediary an agreement: capital of both stakes, provided by the intermediary, for the initiator; nothing else changes but the free balance |
| VirtualChanges.ResponderAdds | packages/node/src/engine/install-virtual-app.ts:1196-1284 | likewise the responder's |
| VirtualChanges.IntermediaryAddsBoth | packages/node/src/engine/install-virtual-app.ts:1083-1194 | and the intermediary's: one pass-through app, an agreement with each endpoint |
| VirtualChanges.AgreementsLockCapital | packages/node/src/engine/install-virtual-app.ts:1149-1191 | what an agreement says was provided is what left the channel's balances: its user's stake, and the rest from its provider |
| VirtualChanges.InitiatorFinalises | packages/node/src/engine/uninstall-virtual-app.ts:634-638 | whenever the initiator's uninstall goes through, from whatever store, the pass-through app's final state pays the outcome asked for, from any block on; nothing else of the app changes but version and timeout |
| VirtualChanges.ResponderFinalises | packages/node/src/engine/uninstall-virtual-app.ts:752-756 | likewise the responder's, whatever outcome it computes |
| VirtualChanges.IntermediaryFinalises | packages/node/src/engine/uninstall-virtual-app.ts:871-875 | and the intermediary's |
| VirtualChanges.InitiatorLeaves | packages/node/src/engine/uninstall-virtual-app.ts:606-638 | the initiator's uninstall leaves the three channels without the pass-through app, the virtual app and the agreement, and nothing else changed but the free balance, two versions later |
| VirtualChanges.ResponderLeaves | packages/node/src/engine/uninstall-virtual-app.ts:724-756 | likewise the responder's |
| VirtualChanges.IntermediaryLeavesBoth | packages/node/src/engine/uninstall-virtual-app.ts:830-875 | and the intermediary's, without the pass-through app and both agreements |
| VirtualChanges.InitiatorSettles | packages/node/src/engine/uninstall-virtual-app.ts:580-632 | whenever the initiator's uninstall goes through, expired pass-through app or not: in its channel with the intermediary it is credited what the deciding app's outcome pays to it, and the intermediary what it pays to the responder; nothing else moves |
| VirtualChanges.ResponderSettles | packages/node/src/engine/uninstall-virtual-app.ts:694-750 | likewise the responder's |
| VirtualChanges.IntermediarySettles | packages/node/src/engine/uninstall-virtual-app.ts:808-866 | and the intermediary's, in both channels, by the outcome asked for or, from the block set in the pass-through app, its default outcome |
| VirtualConservation.UninstallMoves | packages/node/src/engine/uninstall-virtual-app.ts:838-866 | at uninstall each endpoint is credited what it is due and the intermediary, in each channel, what the other is due; nothing else moves |
| VirtualConservation.IntermediaryNeutral | packages/node/src/engine/uninstall-virtual-app.ts:838-866 | over install and a later uninstall the endpoints net x - a and y - b; the intermediary is restored, and each channel's total conserved, exactly when x + y = a + b |
| VirtualLifecycle.SingleAssetDue | packages/node/src/engine/uninstall-virtual-app.ts:590-621 | a single-asset outcome that pays the users' 0th addresses x and y, in either order, makes x and y due |
| VirtualLifecycle.FixedOutcomeDue | packages/node/src/engine/install-virtual-app.ts:839-853 | with a fixed outcome the amounts due are the shares of the users' 0th addresses, which is nothing when the players are other addresses of theirs |
| VirtualLifecycle.FixedOutcomeNeutralIff | packages/node/src/engine/uninstall-virtual-app.ts:614-619 | so with a fixed outcome the intermediary is restored, and each channel's total conserved, exactly when the shares of the users' 0th addresses make up the capital; when the players are other addresses it loses all of it |
| VirtualLifecycle.InstalledReady | packages/node/src/engine/install-virtual-app.ts:887-977 | what installing leaves behind, with either outcome type, fits together for uninstalling |
| VirtualLifecycle.UpdatesKeepReady | packages/node/src/models/state-channel.ts:384-396 | state updates of the virtual app go through and leave it ready to be uninstalled |
| VirtualLifecycle.VirtualLifetime | packages/node/src/engine/install-virtual-app.ts:1149-1191 | install, any number of updates and uninstall, from agreeing copies and for either outcome type: the three agree again, the endpoints net x - a and y - b, and the intermediary is restored exactly when x + y = a + b |
| VirtualFixedOutcomes.LifetimeAgreesIff | packages/node/src/engine/uninstall-virtual-app.ts:534-877 | however a lifetime ends, whoever its outcome pays: the uninstalls agree if the virtual app's and the pass-through app's players make the same shares of the users' 0th addresses, and if they all go through only then |
| VirtualFixedOutcomes.FixedOutcomesAgreeIff | packages/node/src/engine/uninstall-virtual-app.ts:534-877 | with a fixed outcome all three uninstalls go through, and agree exactly when the shares are the same |
| VirtualFixedOutcomes.NumberedSharesAgree | packages/node/src/engine/install-virtual-app.ts:839-853 | they are the same, on every outcome, when key derivation separates 0th addresses from all others, the app comes from a proposal and the three-party channel counts from one |
| VirtualFixedOutcomes.FixedEnds | packages/node/src/engine/install-virtual-app.ts:839-853 | a lifetime with a fixed outcome ends by paying the users the shares of their 0th addresses, by the numbers known at install |
| VirtualProgress.AgreementGoesThrough | packages/node/src/models/state-channel.ts:398-418 | on a solvent channel an agreement is added exactly when both owners can lock what they provide, and leaves it solvent |
| VirtualProgress.RemovalGoesThrough | packages/node/src/models/state-channel.ts:420-441 | an agreement is removed exactly when neither of the two balances it credits ends negative |
| VirtualProgress.InstallGoesThrough | packages/node/src/engine/install-virtual-app.ts:995-1284 | from agreeing copies all three installs go through when everybody can pay: the users their stakes, the intermediary each user's stake towards the other; otherwise the intermediary's or the initiator's throws |
| VirtualProgress.UninstallGoesThrough | packages/node/src/engine/uninstall-virtual-app.ts:534-877 | what was installed can be uninstalled exactly when the outcome leaves no balance negative, so with every outcome that takes nothing from either user |
| ThreePartyChannels.PassThroughIsFresh | packages/node/src/engine/install-virtual-app.ts:904 | a new pass-through app never overwrites a live one |
| ThreePartyChannels.PassThroughsDiffer | packages/node/src/engine/install-virtual-app.ts:904 | no two pass-through apps ever installed in a channel have the same identity |
| ThreePartyChannels.CountsFromOne | packages/node/src/engine/install-virtual-app.ts:904 | the number of a pass-through app is never zero in a channel that began empty |
| VirtualEndToEnd.InstallCompletes | packages/node/src/engine/install-virtual-app.ts:48-745 | from agreeing copies the install protocol has a run to its end, and leaves stores from which the app can be uninstalled |
| VirtualEndToEnd.UninstallCompletes | packages/node/src/engine/uninstall-virtual-app.ts:46-516 | and the uninstall protocol then has one, which leaves shared channels equal and the money settled over the whole lifetime; all three have stored, signed by all three, the state that pays the outcome by which the money was settled, and the owners of each channel its balances, signed by both |
| VirtualEndToEnd.WholeLife | packages/node/src/engine/uninstall-virtual-app.ts:46-516 | from agreeing, solvent stores in which everybody could lock its stake, both protocols have runs to their ends, all copies agree again, and the money is settled, as the stored transactions say |
| VirtualEndToEnd.FixedLife | packages/node/src/engine/uninstall-virtual-app.ts:614-619 | so they do for every app with a fixed outcome whose shares agree: every check passes, and the intermediary ends restored exactly when the shares of the 0th addresses make up the capital, without any of it when the players are other addresses |
| VirtualExamples.IntermediaryLosesTwo | packages/node/src/engine/uninstall-virtual-app.ts:614-619 | an input: with one token staked on either side and a fixed outcome, runs of both protocols to their ends after which the intermediary has lost two tokens |
| VirtualExamples.RolesDisagree | packages/node/src/engine/uninstall-virtual-app.ts:614-619 | an input: an app with number 0, at whose uninstall every role gets through and they do not agree |
| VirtualExamples.LifetimesExist | packages/node/src/engine/install-virtual-app.ts:48-745 | whatever the stakes, the updates and the payments, there are stores and an app for which a whole life starts and ends that way |
| Engine.RunOk | packages/node/src/engine/protocol-runner.ts:130-151 | in every run over a network that drops, delays, replays and mixes: a party has signed, verified and saved exactly what its script says up to where it is, and honest signatures that were verified had been sent by their signers |
| Engine.SavesOnce | packages/node/src/store.ts:111-116 | the store of a party that saves once, and that all its earlier checks had passed |
| Engine.SavesThrice | packages/node/src/store.ts:111-116 | likewise for three saves in a row |
| Engine.VerifiedWasSent | packages/node/src/engine/utils/signature-validator.ts:5-26 | an honest party's signature, when anybody verifies it, stands in a message that the party has sent |
| StoredCommitments.StoresWhatWasChecked | packages/node/src/store.ts:193-201 | in every run, what a party has stored is exactly what its script stores, with the signatures it had checked |
| ProtocolRunner.RunProtocol | packages/node/src/engine/protocol-runner.ts:130-151 | the loop comes to the end of the script or to where it throws, having done exactly the steps before |
| ProtocolRunner.OnlyMessagesMatter | packages/node/src/engine/protocol-runner.ts:130-151 | in every run a party is where the loop gets on the messages delivered to it, whatever else happens |
| InstallProtocol.PlanCommits | packages/node/src/engine/install.ts:507-524 | the free balance to be signed activates the new app; the conditional transaction is for that app exactly when its number is greater than that of every app installed before |
| InstallProtocol.PlanContents | packages/node/src/engine/install.ts:507-524 | what is signed: a transaction with the multisig's owners that pays out the most recently installed app by its outcome type and parameters, the new app's if it has the greatest number; and the free balance that is saved, two versions after the last |
| InstallProtocol.SignsFreeBalanceLast | packages/node/src/engine/install.ts:96-131 | in every run, who has signed a free balance update has verified the counterparty's signature on the conditional transaction |
| InstallProtocol.NoActivationBeforeConditional | packages/node/src/engine/install.ts:206-240 | in every run, nobody has signed a free balance with the new app active without having verified the counterparty's signature on that app's conditional transaction |
| InstallProtocol.SavesWhatIsSigned | packages/node/src/engine/install.ts:122-145 | in every run, a store is untouched or holds the new channel, and then the counterparty's signature on exactly that free balance was verified |
| InstallProtocol.InitiatorSavesFirst | packages/node/src/engine/install.ts:258-276 | in every run between honest parties the stored copies go through (pre,pre), (post,pre), (post,post), and both posts have one free balance even if the copies differed |
| InstallProtocol.StoresSignedCommitments | packages/node/src/engine/install.ts:133-138 | every commitment stored is the conditional transaction, under the app, or the update, under the free balance, properly signed by both and identical at both parties |
| InstallProtocol.EndsWithBothStored | packages/node/src/engine/install.ts:133-138 | and a party that has come to the end has stored both |
| InstallProtocol.Completes | packages/node/src/engine/install.ts:43-288 | when both computed the same, there is a run to the end with both stores saved |
| WithdrawProtocol.PlanCommits | packages/node/src/engine/withdraw.ts:86-91 | the conditional transaction is for the refund app, the first update activates it, the second, two versions later, does not; what they and the withdrawal pay is in the next three rows |
| WithdrawProtocol.PlanContents | packages/node/src/engine/withdraw.ts:547-578 | what these are on: the transaction pays the refund app's outcome in the token asked for, the refund app names recipient and amount, the updates are on the free balances with it and without it again |
| WithdrawProtocol.WithdrawalPays | packages/node/src/engine/withdraw.ts:580-601 | the withdrawal pays the amount asked for in the token asked for to the recipient, out of the multisig of the channel's owners; it is an ETH transfer exactly for the address that stands for ETH |
| WithdrawProtocol.PaysWhatIsLost | packages/node/src/engine/withdraw.ts:203-222 | and that is what the saved channel has lost, so much of this token, out of the initiator's balance and nothing else |
| WithdrawProtocol.WithdrawalCompletes | packages/node/src/engine/withdraw.ts:53-490 | from equal copies there is a run after which both have stored one withdrawal, signed by both, that pays what was asked for, and both have saved the channel that has lost exactly what it pays |
| WithdrawProtocol.SignsFreeBalanceLast | packages/node/src/engine/withdraw.ts:117-152 | in every run, free balance updates are signed after the counterparty's signature on the conditional transaction was verified; the withdrawal and the second update after that on the first update, too |
| WithdrawProtocol.SavesWhatIsSigned | packages/node/src/engine/withdraw.ts:216-222 | in every run, a store is untouched or holds the final channel, never the one with the refund app, after all four signatures of the counterparty were verified |
| WithdrawProtocol.InitiatorSavesFirst | packages/node/src/engine/withdraw.ts:422-469 | in every run between honest parties the responder saves only after the initiator, and the same free balance, unless the initiator's first update is just what the responder takes for the second |
| WithdrawProtocol.StoresSignedCommitments | packages/node/src/engine/withdraw.ts:242-262 | every commitment stored is one of the four, each under its own key, properly signed by both and identical at both parties |
| WithdrawProtocol.Completes | packages/node/src/engine/withdraw.ts:53-490 | when both computed the same, there is a run to the end with both stores saved |
| SingleExchanges.SavesWhatIsSigned | packages/node/src/engine/uninstall.ts:67-80 | in every run of uninstall, update, take-action and propose, what is saved was countersigned |
| SingleExchanges.ResponderSavesFirst | packages/node/src/engine/uninstall.ts:109-137 | in every run between honest parties the initiator saves only after the responder, under one commitment |
| SingleExchanges.StoresSignedCommitment | packages/node/src/engine/uninstall.ts:73-78 | the stored uninstall commitment is properly signed and identical at both parties |
| SingleExchanges.UninstallsAlike | packages/node/src/engine/uninstall.ts:141-155 | one commitment means one free balance and version at both, without the app, however the copies differed; what is paid is `DirectApps.UninstallPays` |
| SingleExchanges.UpdateCommits | packages/node/src/engine/update.ts:41-60 | an update is signed with the key of the app's number, on exactly the new state, one version later, with the default timeout; only the app changes |
| SingleExchanges.ProposeCommits | packages/node/src/engine/propose.ts:50-97 | a proposal is signed on the initial state of an app with the next number and the owners' keys of that number, and stored under its identity |
| SingleExchanges.UpdatesAlike | packages/node/src/engine/update.ts:41-75 | one commitment means the same new state and version of the app, and the same version before |
| SingleExchanges.ProposesAlike | packages/node/src/engine/propose.ts:79-97 | one commitment means one identity, number, state and timeout; the deposits are not signed, and the copies mirror each other exactly when the parties went by the same ones |
| SingleExchanges.Completes | packages/node/src/engine/update.ts:20-156 | when both computed the same commitment, there is a run to the end with both stores saved |
| InstallVirtualProtocol.NoActivationBeforeAgreement | packages/node/src/engine/install-virtual-app.ts:131-164 | in every run, no role signs an update that activates the agreement before it verified the counterparty's signature on the agreement's transaction; the intermediary in the order given |
| InstallVirtualProtocol.InitiatorSaves | packages/node/src/engine/install-virtual-app.ts:224-261 | what the initiator has verified when it saves: the intermediary's signature on exactly the saved free balance, and all others |
| InstallVirtualProtocol.IntermediarySaves | packages/node/src/engine/install-virtual-app.ts:511-542 | what the intermediary has verified when it saves: both owners' signatures on exactly the saved free balances |
| InstallVirtualProtocol.ResponderSaves | packages/node/src/engine/install-virtual-app.ts:654-746 | what the responder has verified when it saves |
| InstallVirtualProtocol.NobodySavesAlone | packages/node/src/engine/install-virtual-app.ts:429-542 | in every run between honest parties, whatever other signatures of theirs the network knows: nobody saves before every update is signed by both owners on the same content and the responder's checks have all passed, however the copies differed |
| InstallVirtualProtocol.InitiatorCommits | packages/node/src/engine/install-virtual-app.ts:88-120 | what the initiator signs: the agreement on the capital for the pass-through app, the free balance that it saves, the pass-through app's state, and the virtual app's initial state |
| InstallVirtualProtocol.ResponderCommits | packages/node/src/engine/install-virtual-app.ts:575-610 | likewise the responder |
| InstallVirtualProtocol.IntermediaryCommitsBoth | packages/node/src/engine/install-virtual-app.ts:300-345 | and the intermediary: both agreements and both free balances, and the pass-through app's state |
| InstallVirtualProtocol.NobodySavesAloneAsComputed | packages/node/src/engine/install-virtual-app.ts:995-1284 | that holds of the plans that the three roles compute, each from its own store and environment, when the channels have the free balance apps of their setup; the copies need not agree |
| InstallVirtualProtocol.EndpointStoresProperly | packages/node/src/engine/install-virtual-app.ts:137-257 | an endpoint stores nothing but four commitments, each signed by exactly those who have to sign it: agreement and update by it and the intermediary, pass-through app by all three, virtual app by both users; at its end it has stored all four |
| InstallVirtualProtocol.IntermediaryStoresProperlyButOnce | packages/node/src/engine/install-virtual-app.ts:445-453 | likewise the intermediary, but for one transaction: the responder's update with the signatures on the initiator's, stored exactly when the fifth message was accepted |
| InstallVirtualProtocol.PlansSeparate | packages/node/src/engine/install-virtual-app.ts:91-105 | the commitments of computed plans tell the two channels, the pass-through app and the virtual app apart |
| InstallVirtualProtocol.PlansMatch | packages/node/src/engine/install-virtual-app.ts:995-1284 | agreeing results make the three roles expect exactly what the others sign |
| InstallVirtualProtocol.PlansExist | packages/node/src/engine/install-virtual-app.ts:88-120 | agreeing results always let the three roles look up each other's addresses and build their commitments, when the channels list their owners |
| InstallVirtualProtocol.Completes | packages/node/src/engine/install-virtual-app.ts:48-745 | fitting plans have a run to the end, with nine channels saved |
| UninstallVirtualProtocol.NoDeactivationBeforePassThrough | packages/node/src/engine/uninstall-virtual-app.ts:110-142 | in every run, nobody signs away an agreement before both others signed the final state of the pass-through app |
| UninstallVirtualProtocol.EndpointSignsOutcome | packages/node/src/engine/uninstall-virtual-app.ts:78-84 | an endpoint's commitment on the pass-through app carries the outcome asked for, from any block on |
| UninstallVirtualProtocol.IntermediarySignsOutcome | packages/node/src/engine/uninstall-virtual-app.ts:219-226 | and so does the intermediary's |
| UninstallVirtualProtocol.InitiatorSaves | packages/node/src/engine/uninstall-virtual-app.ts:163-179 | what the initiator has verified when it saves: the intermediary's signature on exactly the saved free balance |
| UninstallVirtualProtocol.IntermediarySaves | packages/node/src/engine/uninstall-virtual-app.ts:351-379 | what the intermediary has verified when it saves |
| UninstallVirtualProtocol.ResponderSaves | packages/node/src/engine/uninstall-virtual-app.ts:481-514 | what the responder has verified when it saves |
| UninstallVirtualProtocol.SavesInOrder | packages/node/src/engine/uninstall-virtual-app.ts:351-379 | in every run between honest parties, whatever other signatures of theirs the network knows: the initiator saves only when the intermediary has saved everything, and the intermediary only when the responder has, the same free balances |
| UninstallVirtualProtocol.SavesInOrderAsComputed | packages/node/src/engine/uninstall-virtual-app.ts:534-877 | that holds of the plans that the three roles compute, each from its own store and environment |
| UninstallVirtualProtocol.StoresSignedCommitments | packages/node/src/engine/uninstall-virtual-app.ts:123-177 | each role stores nothing but its commitments, the pass-through app signed by exactly all three and each update by its two owners, and at its end all of them |
| UninstallVirtualProtocol.PlansSeparate | packages/node/src/engine/uninstall-virtual-app.ts:78-84 | the commitments of computed plans tell the two channels and the pass-through app apart |
| UninstallVirtualProtocol.PlansMatch | packages/node/src/engine/uninstall-virtual-app.ts:534-877 | agreeing results make the three roles expect exactly what the others sign |
| UninstallVirtualProtocol.Completes | packages/node/src/engine/uninstall-virtual-app.ts:46-516 | fitting plans have a run to the end, with nine channels saved |
| Delivery.MessagesFindTheirWaits | packages/node/src/node.ts:210-244 | in every run of a process at most one message is in flight, each wait is answered by the message it is written for, and no role's step is started twice |
| Delivery.GivenUpForGood | packages/node/src/message-handling/handle-protocol-message.ts:44 | a role that gave up or ended does nothing more: no late reply starts a fresh step |
| Delivery.ProtocolsWellRouted | packages/node/src/engine/install-virtual-app.ts:105-122 | the four routes keep the discipline that this rests on |
| Routes.RouteIsUnique | packages/node/src/engine/protocol-runner.ts:130-151 | the scripts of a protocol determine one route: who sends what number to whom, in which order, and who waits |
| Routes.ExchangesRouted | packages/node/src/engine/update.ts:20-156 | the scripts of propose, update, take-action and uninstall have the two-message route |
| Routes.InstallRouted | packages/node/src/engine/install.ts:43-288 | the scripts of install have the four-message route |
| Routes.WithdrawRouted | packages/node/src/engine/withdraw.ts:53-490 | the scripts of withdraw have the six-message route |
| Routes.InstallVirtualRouted | packages/node/src/engine/install-virtual-app.ts:48-745 | the scripts of install-virtual-app have the eight-message route |
| Routes.UninstallVirtualRouted | packages/node/src/engine/uninstall-virtual-app.ts:46-516 | and so have those of uninstall-virtual-app |
| Nodes.Node.BeginWait | packages/node/src/node.ts:216-222 | the deferral is there before the message goes out |
| Nodes.Node.EndWait | packages/node/src/node.ts:230-243 | a reply removes the deferral; a timeout leaves it |
| Nodes.Node.HandleReceivedMessage | packages/node/src/node.ts:338-358 | the process ID alone decides whether a message answers a wait; the first answer stays |
| Nodes.WaitReturnsFirstReply | packages/node/src/node.ts:360-379 | whatever else comes for the process, the wait gives back the first reply and leaves other processes alone |
| LockQueues.AlwaysValid | packages/node/src/methods/queued-execution.ts:39-57 | the invariants of queues and tasks in every run |
| LockQueues.MutualExclusion | packages/node/src/methods/queued-execution.ts:18-57 | two tasks that share a lock never run at the same time |
| LockQueues.RunsOnce | packages/node/src/methods/queued-execution.ts:18-57 | a task runs at most once, on success and on failure, and once when done; a good answer comes after n + 1 calls of the memoised runner for n locks, with every queue free; once all jobs are released, on failure too, there were n calls but for that last one and every queue is free |
| LockQueues.OutcomeKept | packages/node/src/methods/queued-execution.ts:18-57 | what a task comes to, good or bad, is what every later call of the memoised runner is answered with; it completes no second time |
| LockQueues.SharedOrder | packages/node/src/methods/queued-execution.ts:39-55 | in every queue tasks stand in the order in which they were added |
| LockQueues.NoDeadlock | packages/node/src/methods/queued-execution.ts:39-57 | in every reachable state, whatever has arrived since, a task that is not finished or one added before it can take a step, when these name no lock twice |
| LockQueues.EveryTaskFinishes | packages/node/src/process-queue.ts:30-55 | on every run, arrivals included: the tasks up to any one take at most as many steps as they have work, and when none of them can take a step any more it is finished, if these name no lock twice; no task is starved by later ones |
| LockQueues.FairlyScheduledFinishes | packages/node/src/process-queue.ts:30-55 | so on every schedule that is fair to the tasks up to it, it is finished after a bounded number of rounds, however many tasks arrive |
| LockQueues.NamedTwiceNeverRuns | packages/node/src/process-queue.ts:30-35 | a task that names a lock twice never runs, in any run |
| ProcessQueues.ProcessQueue.GetOrCreateLockQueue | packages/node/src/process-queue.ts:37-54 | a missing queue is created empty, a present one kept |
| ProcessQueues.ProcessQueue.AddTask | packages/node/src/process-queue.ts:30-35 | all queues and then a job on each: the step that the invariants are about |
| ProcessQueues.ProcessQueue.RunTaskWithMemoization | packages/node/src/methods/queued-execution.ts:23-26 | only the first call starts the task |
| ProcessQueues.ProcessQueue.StartJob | packages/node/src/methods/queued-execution.ts:48-52 | a job at the head of its queue resolves its deferred |
| ProcessQueues.ProcessQueue.Release | packages/node/src/methods/queued-execution.ts:48-52 | a settled job leaves its queue, on success and on failure |
| ProcessQueues.EnqueueCreated | packages/node/src/process-queue.ts:30-35 | creating the queues beforehand makes no difference to where the jobs end up |

## Left out

- Real cryptography and encodings: ECDSA recovery, keccak, ABI encoding, BIP-32 derivation and checksummed hex are symbols; whether a state fits its ABI encoding, which `setState` and the constructors check, is not modelled.
- Sorting.SortAddressesCanonical: `sortAddresses` reads 160-bit addresses as floating point numbers and rounds; here addresses are compared exactly.
- On-chain contracts, and the wait between attempts: what the chain answers is a parameter. `computeStateTransition` of an app is the state that take-action is given.
- The setup protocol, which deploys nothing off chain and signs one commitment.
- `encodedInterpreterParams` of virtual apps, which the source itself marks as wrong: the conditional transaction of an agreement holds the agreement.
- The outcome override as a string: an empty override falls back to the computed outcome in the source; here the intermediary's outcome is always given.
- Uninstalling after a pass-through app expired: it is installed to expire at the greatest 256-bit block number, and that the roles agree is stated for the blocks before, what each of them pays also for those after (`VirtualChanges.InitiatorSettles`).
- The distributed lock service behind `ProcessQueue`, p-queue beyond first-in first-out with concurrency 1, and a task that throws before it returns a promise. Which locks each method asks for.
- `getQueueNamesListByProtocolName`, which nothing calls; the events that a node emits; persistence, Firebase and JSON-RPC routing.
- The clean-up of proposals after an install, beyond `RemoveProposal` as an operation of the ledger.
- Stores.JsonRoundTrip: the JSON forms of single app instances, which list the fields one by one, are the apps themselves.
- KeyCaches.KeyCache.GetCreate2MultisigAddress: the factory and master copy addresses, which are those of the one network that a node is set up for, are not part of the cache key or the address.
- FreeBalanceObjects.FreeBalanceClass.constructor: states are values, so that the copy which deserialising makes in the source is not a step here.
- MoneyRuns.MoneyAccounted: a deposit that fails half way leaves its refund app installed, which is an ordinary operation of the run.
- Engine.VerifiedWasSent: a network may know any signatures from earlier runs; theorems about the order of saves exclude only those on the very commitments of the run, because a network that kept such a signature may replay it.
- WithdrawProtocol.InitiatorSavesFirst: the initiator's first update must not be the responder's second, because its signature would then be good for both.
- InstallVirtualProtocol.NobodySavesAlone: there is no total order of saves to state; the responder saves after its last message, so the initiator may be first.
- Delivery.MessagesFindTheirWaits: the messages of one process, each delivered at most once; a network that repeats messages is covered by the protocol theorems, which do not rest on it.
