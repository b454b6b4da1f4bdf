# Proof of stake: a verified model

This project models the proof-of-stake system of Anoma in Dafny and proves what
it promises: the epoched containers of staking data, the transitions on them
(genesis, becoming a validator, bonding, unbonding, withdrawing, slashing, the
updates sent to the consensus engine), the independent check of every change, and
two smaller parts of the ledger, gas metering and the index of block epochs.

## How it is built

- `Timelines` gives a container of per-epoch entries one meaning, a map from
  epochs to entries read by prefix sums, for any associative addition.
  `EpochedDelta` adds its data; `Epoched` is the same with the addition that keeps
  its right operand. `Epoched.dfy` has the two containers as classes that resize,
  rotate and overwrite a vector, each method tied to that meaning.
- `Ledger` has the state and the transitions on values. `PosSystem.dfy` is the
  system as an object whose methods read containers from storage, change them and
  write them back; `Transitions` has their loops. Every method is proved to make
  the transition of `Ledger`, or to change nothing when it fails.
- `CoreInvariant`, `BondInvariant`, `Solvency` and `EntryInvariant` state what
  every transition keeps, at every epoch from the current one on. `Runs` has whole
  runs, with a record of what was ever bonded, unbonded, paid out and slashed, and
  of what the consensus engine was told. `RunTheorems` has the results about every
  run, `RunProgress` that runs start and never get stuck, `Outcomes` when
  transitions go through, and `LateUpdates` what becomes of the engine when its
  updates are computed after other writes of the epoch. `RunExamples` builds runs
  in which something goes wrong.
- `Validation` has the check on values, `Checker` the same as loops that collect
  errors. `ValidationSound` says what an accepted list of changes guarantees, and
  `LaterStates` which updates the check does not look into.
- `CheckOrder` says when the verdict does not depend on the order of a hash map;
  `OrderCounting` counts this out for one validator, and `OrderExample` has a list
  of changes whose verdict does depend on it.
- `WriterAgreement`, `Contributions`, `ReportedChanges`, `Reports` and
  `StakeReports` work out what the check finds in data that transitions have
  written. `Agreement` says exactly when it accepts one transition, `Composition`
  exactly when it accepts a transaction of several, and `TransactionCases` has the
  cases that stand out.

Conventions. A transition yields a new state, an error, or `Panicked` where the
code aborts on a failed conversion or an overflowing balance. Addresses are
numbers, ordered like the source's addresses; a consensus key stands for its
validator's address. The order in which a hash map is visited is arbitrary: a
witness `taken` for the deltas that an unbonding draws on, a sequence `order` for
the epochs that the check visits. Amounts are exact integers; conversions to
unsigned or narrower types are explicit.

Standing assumptions: parameters accepted by `PosParams::validate`, at least one
validator slot, genesis validators with distinct addresses, positive tokens and a
sum that fits `u64`, slash rates of at most 10,000 basis points, and epochs that
never go back. Theorems about runs assume in addition that the updates for the
consensus engine are computed before any other write of the new epoch, as a comment
in `validator_set_update` says. The ledger's own caller does not keep to this: it
applies slashes and runs the transactions of the block first
(`apps/src/lib/node/ledger/shell/finalize_block.rs`, lines 414 and 461).
`LateUpdates.LateEngineOfRuns` says exactly when that still leaves the engine with
the right validators, and `RunExamples.LateEngineWrong` has runs in which it does
not. Where a theorem asks for evidence about the past, this is what the ledger's
caller provides: the epoch of a block that has been.

Where the code and its documentation differ, the model follows the code:

- `ValidatorSetUpdate::Deactivated` is documented for validators that were active
  before. The code also sends it for validators that the consensus engine does not
  have, whenever the weight of an inactive validator changes.
  `Consensus.RemovalsIffQuiet` says exactly when that does not happen, and
  `RunExamples.AbsentRemoved` has runs in which it does.
- `Epoched::get_at_epoch` is documented to return nothing for epochs before the
  last update. The code reads the head (`Validation.EntryAt`).
- The check does not look into an update of a bond or unbond whose prior state was
  updated later than now; a comment says that an earlier test must have failed. The
  test is on the state after the change and need not fail:
  `LaterStates.UnreadChangesNoVerdict` says that such an update has no part in the
  verdict, `LaterStates.LoneBondUpdate` that all others are looked into, and
  `LaterStates.RunsUpdateNothingLater` that no run has such a prior state.
- The check compares a changed stake with the voting power at the epoch that it
  happened to visit before, which depends on the order of a hash map.
  `CheckOrder.VerdictOrderFree` says exactly when the verdict does not depend on it,
  and `OrderExample.OrderMatters` has a list of changes for which it does.
- Valid transitions are documented to compose into valid transactions
  (`tests/src/native_vp/pos.rs`, lines 31 to 34). They do not:
  `Composition.TransactionsOfRuns` says exactly when they do. Tokens that are bonded
  and unbonded again are rejected, and so is bonding to one validator together with
  unbonding from another, unless the stake of the first already changes at the
  unbonding offset.
- What a successful transition writes is meant to be accepted. An unbonding of the
  last tokens of a bond that slashes have made worthless is not
  (`Agreement.AgreementOfRuns`, `TransactionCases.WorthlessRejected`).
- A slash is computed from the stake of the current epoch and taken off at the
  pipeline offset. `Outcomes.SlashOutcome` says exactly when that goes through;
  `RunExamples.SlashAborts` has runs in which it aborts.
- At epoch zero the check's backwards search for an earlier stake subtracts one from
  an unsigned zero. Built with overflow checks the program aborts there; without
  them it goes on from the largest epoch. The model reports that nothing was found
  (`Checker.CheckWeight`).

## Model

| member | source | states |
|---|---|---|
| `Agreement.AgreementOfRuns` | proof_of_stake/src/validation.rs:308-1697 | in every run whose evidence is about the past, slashes included: the data written by a successful bonding, unbonding or withdrawal is accepted, for every order of the reported changes and of the epochs visited, if and only if it is not the unbonding of the last tokens of a worthless bond |
| `Agreement.BondAccepted` | proof_of_stake/src/lib.rs:280-342 | from any sound state, what a bonding writes is accepted if and only if the check takes the new tokens at their full value: no evidence of an epoch at or after their start takes anything off |
| `Agreement.UnbondAccepted` | proof_of_stake/src/lib.rs:347-411 | from any sound state, what an unbonding writes is accepted, whichever deltas it draws on, if and only if the tokens have one value in the bond and in the unbond, and a deleted bond was worth something |
| `Agreement.WithdrawAccepted` | proof_of_stake/src/lib.rs:416-469 | from any sound state, with any slashes, what a withdrawal writes is accepted, also when the unbond is deleted |
| `Agreement.ValuesKept` | proof_of_stake/src/validation.rs:930-941 | with evidence about the past the check takes bonded and unbonded tokens at the value that the transitions give them |
| `Agreement.RunEvidence` | proof_of_stake/src/lib.rs:830-888 | evidence that is about the past when it is recorded stays so in every later state of a run |
| `Composition.TransactionsOfRuns` | tests/src/native_vp/pos.rs:31-34 | in every run without slashes, what any sequence of bondings, unbondings and withdrawals within one epoch has written is accepted if and only if each validator's stake changes in the end, or none of its bonds has come, gone or changed and its unbonds have not grown, and the written voting powers are aligned with the stakes |
| `Composition.TransactionMoves` | tests/src/native_vp/pos.rs:31-34 | such a sequence moves stakes up at the pipeline offset and down at the unbonding offset only, takes at most from bonds that there were, and writes exactly the keys of its transitions |
| `Composition.NetIsGain` | proof_of_stake/src/validation.rs:1254-1281 | what the written bonds contribute to a validator is the net change of its stake |
| `Composition.BalanceIsGain` | proof_of_stake/src/validation.rs:1677-1694 | the balance changes by what the written bonds and unbonds contribute |
| `Composition.TokensOk` | proof_of_stake/src/validation.rs:819-1187 | no error is found in any written bond or unbond itself, whatever the sequence |
| `TransactionCases.OneValidatorTransaction` | tests/src/native_vp/pos.rs:31-34 | a sequence on the bonds of one validator is accepted if and only if that validator's net change is allowed |
| `TransactionCases.BondedAndUnbondedRejected` | proof_of_stake/src/validation.rs:1272-1281 | tokens bonded and unbonded again in one transaction are rejected |
| `TransactionCases.TwoValidatorsRejected` | proof_of_stake/src/validation.rs:1515-1547 | bonding to one validator and unbonding from another in one transaction is rejected when the stake of the first does not change at the unbonding offset |
| `TransactionCases.RejectionsHappen` | tests/src/native_vp/pos.rs:31-34 | runs from every genesis with two validators in which both rejections happen |
| `TransactionCases.WorthlessRejected` | proof_of_stake/src/validation.rs:1002-1030 | runs in which a validator's whole stake is slashed and the unbonding of its tokens goes through and is rejected |
| `StakeReports.AcceptsIff` | proof_of_stake/src/validation.rs:308-1697 | the changes between two sound states of one epoch are accepted if and only if the tokens pass in themselves, match the stakes and the balance, and the voting powers are aligned, whatever the order of changes and epochs |
| `StakeReports.StakesChecked` | proof_of_stake/src/validation.rs:1283-1624 | for any set of validators the checks of validator sets, stakes and total voting power find nothing, and that of voting powers passes if and only if they are aligned |
| `StakeReports.TotalsChecked` | proof_of_stake/src/validation.rs:1254-1281 | total deltas match bonds and unbonds if and only if they do validator by validator, with the net change of stake |
| `StakeReports.TotalPowerAccepted` | proof_of_stake/src/validation.rs:1606-1624 | the total voting power moves by what the written voting powers move by together, epoch by epoch |
| `WriterAgreement.MovedMore` | proof_of_stake/src/lib.rs:1703-1730 | one more bonding or unbonding keeps the shape in which stakes move within an epoch |
| `WriterAgreement.TotalAccepted` | proof_of_stake/src/validation.rs:560-659 | total deltas that grow at the pipeline offset and shrink at the unbonding offset pass, and their contribution is the net change |
| `WriterAgreement.PowersChecked` | proof_of_stake/src/validation.rs:1515-1604 | voting powers match stakes if and only if each entry follows one of the validator's own stake with none of another written validator in between; stakes match voting powers in whatever order epochs are visited |
| `WriterAgreement.OneAligned` | proof_of_stake/src/validation.rs:1515-1547 | the stake data of a single validator are always aligned |
| `WriterAgreement.MemberAccepted` | proof_of_stake/src/validation.rs:1315-1464 | every member of a set after changes of stake has the weight of its changed stake, or is unchanged, or has that of the latest earlier change |
| `WriterAgreement.SetsAccepted` | proof_of_stake/src/validation.rs:1283-1513 | the validator sets written by changes of stake pass the check at every epoch of the window |
| `Reports.CollectGenuine` | proof_of_stake/src/validation.rs:413-1252 | from changes reported in any order the check collects, per validator and epoch, the sums of what each key contributes |
| `Contributions.DifferencesAre` | proof_of_stake/src/validation.rs:840-893 | the differences that the check accumulates, with overwriting and dropping of zeros, are the differences of the amounts, key by key |
| `Contributions.ContributionIsWorth` | proof_of_stake/src/validation.rs:819-1187 | with any slashes a created, updated or deleted bond or unbond contributes what the amounts that differ are worth |
| `Contributions.TakenWorth` | proof_of_stake/src/lib.rs:1653-1701 | what an unbonding takes off the stake, entry by entry, is what all the taken tokens are worth |
| `Contributions.WorthKept` | proof_of_stake/src/validation.rs:1091-1117 | with evidence about the past tokens are worth the same in a bond and in an unbond that ends later |
| `ReportedChanges.BondReport` | proof_of_stake/src/validation.rs:819-1002 | a bonding reports a bond that contributes the value of the bonded amount, acceptable in itself unless it is new and of no value |
| `ReportedChanges.UnbondReport` | proof_of_stake/src/validation.rs:819-1187 | an unbonding reports an acceptable bond and unbond: the worth of the taken tokens leaves the one, and their value in the unbond enters the other |
| `ReportedChanges.WithdrawReport` | proof_of_stake/src/validation.rs:1032-1187 | with any slashes a withdrawal reports an unbond that contributes the change of the balance |
| `ReportedChanges.SeenIsGet` | proof_of_stake/src/validation.rs:836-862 | the prior amounts that the check has seen by an epoch are all the tokens bonded by then |
| `LaterStates.UnreadStep` | proof_of_stake/src/validation.rs:825-835 | no error is found in an update whose prior state was updated later than now, and it contributes nothing, whatever it holds |
| `LaterStates.UnreadChangesNoVerdict` | proof_of_stake/src/validation.rs:1038-1048 | wherever it stands in a list of changes, such an update has no part in the verdict |
| `LaterStates.LoneBondUpdate` | proof_of_stake/src/validation.rs:821-951 | an update of a bond on its own is accepted if and only if it was updated now and its prior state later, or its amounts are allowed and those that differ are worth nothing together |
| `LaterStates.LoneUnbondUpdate` | proof_of_stake/src/validation.rs:1034-1117 | the same for an unbond, of which only the worth is compared |
| `LaterStates.LoneUpdatesOfShaped` | proof_of_stake/src/validation.rs:819-1117 | without slashes, for well-formed amounts: if and only if there are as many tokens as before |
| `LaterStates.RunsUpdateNothingLater` | proof_of_stake/src/lib.rs:1480-1493 | no state of any run has a bond or unbond updated later than its epoch |
| `ValidationSound.StakesFollowBonds` | proof_of_stake/src/validation.rs:1254-1281 | in any accepted list of well-formed changes without slashes, each validator's final stake changes by exactly what the tokens bonded to it change by |
| `ValidationSound.BalanceFollowsTokens` | proof_of_stake/src/validation.rs:1677-1694 | in any such list the balance changes by the bonded and the unbonded tokens together |
| `ValidationSound.NoEarlyStakeChange` | proof_of_stake/src/validation.rs:622-643 | in any accepted list no stake changes before the pipeline epoch and none is lowered before the unbonding epoch |
| `ValidationSound.StakesKeptUntilPipeline` | proof_of_stake/src/validation.rs:560-659 | an accepted update of total deltas leaves every stake before the pipeline epoch as it was |
| `ValidationSound.DifferencesSum` | proof_of_stake/src/validation.rs:840-893 | the differences that the check accumulates, with overwriting and dropping of zeros, count every token exactly once |
| `ValidationSound.ContributionIsChange` | proof_of_stake/src/validation.rs:819-1187 | without slashes a created, updated or deleted bond or unbond contributes the change of its tokens |
| `ValidationSound.CollectSums` | proof_of_stake/src/validation.rs:413-1252 | the accumulators hold, per validator, the sums of the changes of stake, bonds and unbonds |
| `Validation.SignedSlashes` | proof_of_stake/src/validation.rs:930-941 | the check values an amount after slashes, or the lack of one, exactly as the transitions do |
| `CheckOrder.PassInEveryOrder` | proof_of_stake/src/validation.rs:1549-1604 | changed stakes pass in every visiting order if and only if each shows in the voting power of its own epoch or makes no difference to it |
| `CheckOrder.VerdictOrderFree` | proof_of_stake/src/validation.rs:1549-1604 | the verdict on a list of changes is the same for every visiting order if and only if it fails another check, or every changed stake shows at its own epoch, or the epochs whose stakes do not show cannot be given covering epochs, each its own and without going round in circles |
| `OrderCounting.OneValidatorOrderFree` | proof_of_stake/src/validation.rs:1549-1604 | for a list that changes one validator this is a count: if and only if it fails another check, or no voting power is missing, or one is missing at more epochs than it is written at |
| `OrderExample.OrderMatters` | proof_of_stake/src/validation.rs:1574-1594 | a list of changes, of one bond with its stake data and balance, that is accepted in one visiting order and rejected in another |
| `Checker.Validate` | proof_of_stake/src/validation.rs:308-1697 | the check as loops finds no error if and only if the changes are accepted, for the order it visited epochs in |
| `Checker.Gather` | proof_of_stake/src/validation.rs:413-1252 | the loop over the changes accumulates exactly the findings and finds an error if and only if some change has one |
| `Checker.CheckChange` | proof_of_stake/src/validation.rs:413-1252 | one change adds its own findings and leaves the others alone |
| `Checker.CheckTotal` | proof_of_stake/src/validation.rs:559-724 | total deltas: stakes before and after at every entry, the total change, and errors exactly when an epoch or the sum is not allowed |
| `Checker.CheckPower` | proof_of_stake/src/validation.rs:725-809 | voting power: its value at every entry, the differences expected of the total, and errors exactly for negative values |
| `Checker.CheckTotalPower` | proof_of_stake/src/validation.rs:1198-1231 | total voting power: where the deltas differ and by how much |
| `Checker.CheckBondUpdate` | proof_of_stake/src/validation.rs:821-951 | an updated bond: errors exactly when an amount is not allowed, and its contribution |
| `Checker.CheckBondInit` | proof_of_stake/src/validation.rs:952-1001 | a new bond: errors exactly when it is not at the pipeline offset, misplaced or worth nothing |
| `Checker.CheckBond` | proof_of_stake/src/validation.rs:819-1031 | a created, updated or deleted bond |
| `Checker.CheckUnbond` | proof_of_stake/src/validation.rs:1032-1187 | a created, updated or deleted unbond |
| `Checker.DiffEntries` | proof_of_stake/src/validation.rs:1049-1090 | the differences of two containers, entry by entry, in any order of keys |
| `Checker.CheckTokens` | proof_of_stake/src/validation.rs:1254-1281 | total deltas against bonds and unbonds, validator by validator |
| `Checker.CheckWeight` | proof_of_stake/src/validation.rs:1315-1389 | one validator's weight against its changed stake, the set before, and earlier changes |
| `Checker.CheckSets` | proof_of_stake/src/validation.rs:1283-1513 | the validator sets of the whole window |
| `Checker.CheckPowers` | proof_of_stake/src/validation.rs:1515-1547 | voting powers against the stakes of the latest epoch with any change |
| `Checker.CheckStakes` | proof_of_stake/src/validation.rs:1549-1604 | stakes against voting powers, each epoch visited once in an arbitrary order |
| `Checker.CheckTotalPowers` | proof_of_stake/src/validation.rs:1606-1624 | the total voting power against what the validators' changes add up to |
| `Checker.CheckBalance` | proof_of_stake/src/validation.rs:1677-1694 | the balance against the sums of the contributions |
| `RunTheorems.ValidatorSetsOfRuns` | proof_of_stake/src/lib.rs:1736-1843 | in every run, slashes included, at every epoch from now on: the set is well formed and holds every joined validator exactly once, with the voting power of its stake |
| `RunTheorems.VotingPowersOfRuns` | proof_of_stake/src/lib.rs:1846-1904 | in every run, at every epoch from now on: each voting power is that of the stake, and the total is their sum |
| `RunTheorems.TokensOfRuns` | proof_of_stake/src/lib.rs:1648-1701 | in every run, slashes included, per bond: the tokens ever bonded are bonded, unbonded, paid out or slashed at a withdrawal |
| `RunTheorems.WithdrawalDelayOfRuns` | proof_of_stake/src/lib.rs:1924-1987 | in every run, the tokens paid out and slashed at withdrawals are together at most those unbonded at least the unbonding length ago |
| `RunTheorems.WithdrawalReleasesAll` | proof_of_stake/src/lib.rs:1958-1986 | a withdrawal pays out or slashes all of them |
| `RunTheorems.EngineOfRuns` | proof_of_stake/src/lib.rs:715-827 | replaying the updates of every epoch, computed before its other writes, the consensus engine always has exactly the active validators with voting power, with that power |
| `RunTheorems.ActivePowersOfRuns` | proof_of_stake/src/parameters.rs:74-78 | in every run, at every epoch from now on, the voting powers of the active validators sum to at most what Tendermint accepts, and so do those of the engine |
| `LateUpdates.NothingSent` | proof_of_stake/src/lib.rs:722-734 | once the validator sets were updated in the current epoch no update is sent at all |
| `LateUpdates.LateEngineOfRuns` | apps/src/lib/node/ledger/shell/finalize_block.rs:414-472 | updates computed after other transitions of the epoch leave the engine with its active validators if and only if none of them has updated the validator sets, or the active validators with power are those of the previous epoch |
| `RunExamples.LateEngineWrong` | apps/src/lib/node/ledger/shell/finalize_block.rs:414-472 | runs in which a slash comes first in the epoch, nothing is sent, and the engine keeps an old voting power |
| `RunExamples.SlashAborts` | proof_of_stake/src/lib.rs:1237-1284 | from every genesis: after a validator has unbonded all its tokens, any slash of it that takes something aborts until they are unbonded |
| `RunExamples.AbsentRemoved` | proof_of_stake/src/lib.rs:787-824 | from every genesis with one slot and two validators: runs in which the engine is asked to remove a validator that it does not have |
| `RunExamples.WithDefaults` | proof_of_stake/src/parameters.rs:37-53 | these three happen with the default parameters, but for the number of slots in the last |
| `RunTheorems.StakesOfSlashFreeRuns` | proof_of_stake/src/lib.rs:1573-1732 | in every run without slashes, a stake at any epoch from now on is what bonds and unbonds put at stake for it then, hence not negative, and in the end the tokens bonded |
| `RunTheorems.BalanceOfSlashFreeRuns` | proof_of_stake/src/lib.rs:333-339 | in every run without slashes the account holds exactly all bonded and unbonded tokens, and no unbonding or withdrawal aborts |
| `Runs.StepInv` | proof_of_stake/src/lib.rs:280-469 | every step of the system keeps the invariants on stakes, sets, powers, bonds, books and the engine |
| `Runs.RunInv` | proof_of_stake/src/lib.rs:654-888 | the invariants hold in every state of every run |
| `Runs.UnbondBooks` | proof_of_stake/src/lib.rs:1647-1701 | an unbonding keeps every bond's tokens accounted for and makes them due after the unbonding length |
| `Runs.WithdrawBooks` | proof_of_stake/src/lib.rs:445-466 | a withdrawal pays out what leaves the account, slashes the rest of what is due, and keeps every bond's tokens accounted for |
| `RunProgress.RunStarts` | proof_of_stake/src/lib.rs:654-712 | a run starts from every admissible genesis |
| `RunProgress.RunGoesOn` | proof_of_stake/src/lib.rs:224-469 | every run can go on with any attempted transition; in particular the deltas of an unbonding and the updates of an epoch can always be chosen |
| `RunProgress.CanTake` | proof_of_stake/src/lib.rs:1653-1701 | from any entries the wanted amount, or all there is, can be taken future-most first |
| `EntryInvariant.RunEntries` | proof_of_stake/src/lib.rs:1866-1903 | in every run a voting power has an entry wherever the stake has one, and none before the stake's first |
| `EntryInvariant.UpdatePowersSome` | proof_of_stake/src/lib.rs:1866-1903 | an update of voting powers leaves an entry at every epoch from its offset to the end of the window |
| `Outcomes.BondOutcome` | proof_of_stake/src/lib.rs:280-342 | without slashes a bonding goes through if and only if a positive amount goes to a known validator, not from another one, and the account can hold it |
| `Outcomes.BondOutcomeOfAny` | proof_of_stake/src/lib.rs:280-342 | in any sound state a bonding goes through if and only if it is allowed and the stake and the account can hold the amount |
| `Outcomes.UnbondOutcome` | proof_of_stake/src/lib.rs:1626-1640 | without slashes an unbonding goes through if and only if the bond has the positive amount, and it never aborts |
| `Outcomes.UnbondOutcomeOfAny` | proof_of_stake/src/lib.rs:1626-1732 | in any sound state, slashes included, an unbonding goes through if and only if the bond has the positive amount and no later stake is below what the taken tokens are worth; if only the latter fails, it aborts |
| `Outcomes.WithdrawOutcome` | proof_of_stake/src/lib.rs:1957-1962 | without slashes a withdrawal goes through if and only if the due tokens sum to more than nothing, and it is always funded |
| `Outcomes.WithdrawOutcomeOfAny` | proof_of_stake/src/lib.rs:1957-1980 | in any sound state a withdrawal goes through if and only if tokens are due and the account can pay what they are worth; if only the latter fails, it aborts |
| `Outcomes.DueWhenPositive` | proof_of_stake/src/lib.rs:1957-1962 | a stored unbond has a withdrawable entry if and only if the due tokens sum to more than nothing |
| `Outcomes.SlashOutcome` | proof_of_stake/src/lib.rs:1237-1284 | a slash goes through if and only if no stake from the pipeline offset on is below the amount found from the current stake; otherwise it aborts |
| `Outcomes.ChangeGoesThrough` | proof_of_stake/src/lib.rs:1768-1779 | a change of stake goes through when the stake stays within its type at every later epoch |
| `Outcomes.ChangeOutcome` | proof_of_stake/src/lib.rs:1768-1779 | and only then |
| `Solvency.BondSolvent` | proof_of_stake/src/lib.rs:333-339 | a bonding keeps every stake backed by bonds and unbonds, and the balance equal to all tokens held |
| `Solvency.UnbondSolvent` | proof_of_stake/src/lib.rs:390-403 | an unbonding keeps stakes backed: tokens stay at stake until their unbond ends |
| `Solvency.WithdrawSolvent` | proof_of_stake/src/lib.rs:445-466 | a withdrawal keeps stakes backed and the balance equal to all tokens held |
| `Solvency.WithdrawnAndSlashed` | proof_of_stake/src/lib.rs:1963-1980 | what a withdrawal pays out and what it slashes add up to the due tokens |
| `Solvency.GenesisSolvent` | proof_of_stake/src/lib.rs:654-712 | genesis stakes are backed by the self-bonds, and the balance is their sum |
| `CoreInvariant.ChangeStakes` | proof_of_stake/src/lib.rs:1707-1718 | a change of stake moves exactly the epochs from its offset on, for its validator only |
| `CoreInvariant.ChangeSetAt` | proof_of_stake/src/lib.rs:1736-1843 | it reweighs the validator in the set of exactly the epochs from its offset on |
| `CoreInvariant.ChangeCore` | proof_of_stake/src/lib.rs:1703-1730 | it keeps sets, stakes, voting powers and their total in step at every epoch |
| `CoreSteps.BondCore` | proof_of_stake/src/lib.rs:1403-1554 | a bonding keeps all views of the stake in step |
| `CoreSteps.UnbondCore` | proof_of_stake/src/lib.rs:1573-1732 | an unbonding keeps all views of the stake in step |
| `CoreSteps.SlashCore` | proof_of_stake/src/lib.rs:1204-1285 | a slash that goes through keeps all views of the stake in step |
| `CoreSteps.BecomeValidatorCore` | proof_of_stake/src/lib.rs:1306-1375 | a new validator enters the sets of exactly the epochs in which it has joined, with no weight |
| `CoreSteps.NextEpochCore` | proof_of_stake/src/lib.rs:720-740 | a new epoch needs no write: all views already provide for it |
| `CoreSteps.GenesisCore` | proof_of_stake/src/lib.rs:1062-1200 | genesis data has all views of the stake in step |
| `StakeViews.UpdatePowersEffect` | proof_of_stake/src/lib.rs:1846-1904 | after the update the voting power is that of the stake at every epoch from the offset on, unchanged before, and the total has moved by the same |
| `BondInvariant.BondEffect` | proof_of_stake/src/lib.rs:1480-1493 | a bonding adds the amount under the pipeline epoch and nothing else |
| `BondInvariant.UnbondEffect` | proof_of_stake/src/lib.rs:1648-1701 | an unbonding moves exactly the amount from bond to unbond in any visiting order, also when the bond is deleted, due after the unbonding length and not before |
| `BondInvariant.WithdrawEffect` | proof_of_stake/src/lib.rs:1958-1986 | a withdrawal takes out exactly the tokens that are due, also when the unbond is deleted |
| `DeltaMaps.TakenSum` | proof_of_stake/src/lib.rs:1653-1701 | what is taken from a bond is the amount wanted, or all there is |
| `DeltaMaps.LeftOversAdd` | proof_of_stake/src/lib.rs:1653-1701 | what is left and what was taken make up the bond |
| `Consensus.EnterEpoch` | proof_of_stake/src/lib.rs:715-827 | replaying the updates for the next epoch turns the engine's validators into that epoch's active ones with power |
| `Consensus.EnterGenesis` | proof_of_stake/src/lib.rs:727-731 | at epoch zero the updates fill an empty engine |
| `Consensus.RemovalsIffQuiet` | proof_of_stake/src/lib.rs:785-826 | only validators that the engine has are removed if and only if validators outside it keep their set and weight or are new without power |
| `Consensus.InactiveChangeIsSent` | proof_of_stake/src/lib.rs:787-824 | a removal is sent for every inactive validator whose weight changes, although the engine does not have it |
| `PosSystems.PosSystem.InitGenesis` | proof_of_stake/src/lib.rs:654-712 | writes the genesis data over the store, with the last of repeated addresses kept and all of them counted in the totals, or fails exactly when a voting power does not fit |
| `GenesisStore.GenesisOverNothing` | proof_of_stake/src/lib.rs:654-712 | on an empty store with distinct addresses this is the genesis state |
| `PosSystems.PosSystem.BecomeValidator` | proof_of_stake/src/lib.rs:224-269 | makes the transition or changes nothing |
| `PosSystems.PosSystem.BondTokens` | proof_of_stake/src/lib.rs:280-342 | makes the transition or changes nothing |
| `PosSystems.PosSystem.UnbondTokens` | proof_of_stake/src/lib.rs:347-411 | makes the transition for some order of the deltas, or changes nothing |
| `PosSystems.PosSystem.WithdrawTokens` | proof_of_stake/src/lib.rs:416-469 | makes the transition and returns the tokens slashed, or changes nothing |
| `PosSystems.PosSystem.Slash` | proof_of_stake/src/lib.rs:830-888 | makes the transition or changes nothing; an account without the tokens is left alone |
| `PosSystems.PosSystem.ValidatorSetUpdate` | proof_of_stake/src/lib.rs:715-827 | lists exactly the updates for validators that are not skipped, the active ones first, each once unless the inactive set repeats an address; aborts exactly when there is no set for the epoch |
| `PosSystems.PosSystem.IsInactive` | proof_of_stake/src/lib.rs:1456-1476 | the validator is inactive in some epoch before the pipeline offset |
| `PosSystems.PosSystem.MoveToUnbond` | proof_of_stake/src/lib.rs:1642-1701 | takes the amount out of the bond and into the unbond, with what it is worth after slashes |
| `GenesisStore.Accumulate` | proof_of_stake/src/lib.rs:1114-1131 | the weighted validators, the total voting power and the bonded balance of any list of genesis validators |
| `GenesisStore.TrimToSlots` | proof_of_stake/src/lib.rs:1132-1144 | pops the weakest validators into the inactive set until the rest fit |
| `Transitions.TakeTokens` | proof_of_stake/src/lib.rs:1648-1701 | the reverse loop with its captured counter draws on the future-most entries first, writes the unbonds and sums what they are worth |
| `Transitions.TakeFromEntry` | proof_of_stake/src/lib.rs:1655-1697 | the visit of one delta map takes what is wanted or all of it, in any order of keys |
| `Transitions.UpdateVotingPowers` | proof_of_stake/src/lib.rs:1846-1904 | the loop over the window adds the same delta to the validator's and to the total voting power |
| `Transitions.UpdateValidatorSet` | proof_of_stake/src/lib.rs:1736-1843 | reweighs the validator from the offset on, or aborts exactly when a stake does not fit |
| `Transitions.RewriteStake` | proof_of_stake/src/lib.rs:1703-1730 | sets, total deltas and voting powers of one change of stake, in the order of the code |
| `Transitions.WithdrawDue` | proof_of_stake/src/lib.rs:1963-1980 | what the due tokens are worth after the slashes within their range, and what these take off |
| `Transitions.SlashBond` | proof_of_stake/src/lib.rs:1678-1688 | a bond's slashes one after the other, each from what the previous one left |
| `Transitions.SlashUnbond` | proof_of_stake/src/lib.rs:1966-1978 | an unbond's slashes one after the other, and what they take off |
| `ValidatorSets.ReweighWellFormed` | proof_of_stake/src/lib.rs:1793-1836 | reweighing replaces exactly one weight and keeps the set well formed: slots, order and unique addresses |
| `ValidatorSets.AddNewWellFormed` | proof_of_stake/src/lib.rs:1351-1368 | a newcomer joins the active set if there is a slot, else the inactive one, and the set stays well formed |
| `ValidatorSets.TrimWellFormed` | proof_of_stake/src/lib.rs:1132-1144 | trimming splits validators into the strongest `slots` and the rest |
| `ValidatorSets.FirstShim` | proof_of_stake/src/btree_set.rs:27-30 | the least element by voting power and then address, none exactly for the empty set |
| `ValidatorSets.LastShim` | proof_of_stake/src/btree_set.rs:32-35 | the greatest element by voting power and then address, none exactly for the empty set |
| `Timelines.FoldIsGet` | proof_of_stake/src/epoched.rs:344-397 | the sum of the vector up to an epoch is the value of the map at that epoch |
| `Timelines.AdvanceGet` | proof_of_stake/src/epoched.rs:411-456 | bringing a container forward to any later epoch, even past its whole window, keeps its value at every epoch from then on |
| `Timelines.AddAtGet` | proof_of_stake/src/epoched.rs:460-523 | for an addition that commutes, an addition shifts exactly the epochs from its target on, by its value |
| `Timelines.AddAtTarget` | proof_of_stake/src/epoched.rs:460-473 | up to its target the same holds for additions that do not commute |
| `Timelines.AddAtSplits` | proof_of_stake/src/epoched.rs:460-473 | after its target, for additions that do not commute, the value comes between what was there at the target and the later entries |
| `Timelines.DeleteHeadGet` | proof_of_stake/src/epoched.rs:476-483 | deleting the current value takes exactly what was due off every later epoch |
| `Timelines.InitAtGet` | proof_of_stake/src/epoched.rs:296-342 | a new container reads its value from its epoch on and nothing before |
| `Timelines.UpdateFromBefore` | proof_of_stake/src/epoched.rs:240-278 | an update from an offset leaves earlier epochs alone |
| `Timelines.UpdateFromAfter` | proof_of_stake/src/epoched.rs:240-278 | from the offset on it maps the value, with the epoch at which that value was set |
| `Timelines.UpdateFromUniform` | proof_of_stake/src/epoched.rs:240-278 | a function that does not look at the epoch is mapped over all epochs from the offset on |
| `EpochedContainers.EpochedDelta.InitAtIndex` | proof_of_stake/src/epoched.rs:328-340 | one entry at an index |
| `EpochedContainers.EpochedDelta.Get` | proof_of_stake/src/epoched.rs:344-397 | the value at an epoch |
| `EpochedContainers.EpochedDelta.GetDeltaAtEpoch` | proof_of_stake/src/epoched.rs:401-407 | the entry of exactly one epoch, none before the last update |
| `EpochedContainers.EpochedDelta.UpdateData` | proof_of_stake/src/epoched.rs:411-456 | resizing, rotating and folding the vector brings the container forward |
| `EpochedContainers.EpochedDelta.AddAtOffset` | proof_of_stake/src/epoched.rs:487-502 | adds at an offset |
| `EpochedContainers.EpochedDelta.AddAtEpoch` | proof_of_stake/src/epoched.rs:506-523 | adds at an epoch of the window |
| `EpochedContainers.EpochedDelta.DeleteCurrent` | proof_of_stake/src/epoched.rs:476-483 | deletes the current value |
| `EpochedContainers.Epoched.Get` | proof_of_stake/src/epoched.rs:136-170 | the latest value at or before an epoch |
| `EpochedContainers.Epoched.UpdateData` | proof_of_stake/src/epoched.rs:186-222 | resizing and rotating the vector brings the container forward |
| `EpochedContainers.Epoched.Set` | proof_of_stake/src/epoched.rs:225-235 | sets the value from the offset on |
| `EpochedContainers.Epoched.UpdateFromOffset` | proof_of_stake/src/epoched.rs:240-278 | updates the values from an offset on |
| `Sums.Merge` | proof_of_stake/src/types.rs:559-585 | the in-place merge of one delta map into another adds amounts key by key, in any order |
| `Sums.SumDeltas` | proof_of_stake/src/types.rs:547-557 | the sum of a delta map, in any order |
| `Sums.SumAddAmounts` | proof_of_stake/src/types.rs:600-627 | no tokens are lost or made by an addition of deltas |
| `Sums.AddAmountsLaws` | proof_of_stake/src/types.rs:559-627 | the addition of deltas is associative and commutative |
| `Params.Validate` | proof_of_stake/src/parameters.rs:83-123 | reports nothing if and only if the parameters are valid |
| `Params.VotingPowerFits` | proof_of_stake/src/types.rs:395-406 | with valid parameters no amount of tokens overflows a voting power |
| `Params.ActivePowerWithinTendermintLimit` | proof_of_stake/src/parameters.rs:74-78 | with valid parameters the voting powers of any active set within the slots sum to at most what Tendermint accepts |
| `Params.VotingPowerMonotone` | proof_of_stake/src/types.rs:357-364 | more tokens never mean less voting power |
| `Params.AfterSlashesBounds` | proof_of_stake/src/lib.rs:1678-1688 | successive truncating slashes leave between nothing and the amount, and more of a larger amount |
| `Params.AfterSlashesSplit` | proof_of_stake/src/types.rs:740-756 | slashing two parts keeps at least as much as slashing the whole, and at most one unit more per slash |
| `Gas.TreeIndependent` | shared/src/ledger/gas.rs:164-213 | any two merge trees over the same runs give the same charge and the same verdict on the limit |
| `Gas.TreeCharge` | shared/src/ledger/gas.rs:206-212 | the charge is the largest run and a tenth of the others |
| `Gas.EvaluateDecides` | shared/src/ledger/gas.rs:164-204 | checking the limit at every merge decides the same as checking the whole charge |
| `Gas.SumsFit` | shared/src/ledger/gas.rs:206-212 | the sum of the runs, which the code takes without a check, fits 64 bits at every merge |
| `Gas.MergeMonotone` | shared/src/ledger/gas.rs:172-194 | merging never lowers the gas |
| `Gas.MergeRuns` | shared/src/ledger/gas.rs:172-194 | merging puts the runs together, none lost, and keeps the maximum |
| `Gas.VpsGas.Merge` | shared/src/ledger/gas.rs:172-194 | takes over the other meter's runs and leaves it without a rest |
| `Gas.VpsGas.Set` | shared/src/ledger/gas.rs:164-170 | records a single run |
| `Gas.VpsGas.CheckLimit` | shared/src/ledger/gas.rs:196-204 | fails exactly when the gas so far and the charge exceed the limit |
| `Gas.VpsGas.GetCurrentGas` | shared/src/ledger/gas.rs:206-212 | the charge, or an overflow, of runs whose sum fits 64 bits |
| `Gas.VpGasMeter.Add` | shared/src/ledger/gas.rs:137-153 | records gas unless it overflows, and fails exactly above the limit |
| `Gas.BlockGasMeter.Add` | shared/src/ledger/gas.rs:65-76 | records gas of the current transaction unless it overflows |
| `Gas.BlockGasMeter.FinalizeTransaction` | shared/src/ledger/gas.rs:93-105 | moves the gas of the transaction to the block |
| `Gas.BlockGasMeter.AddVpsGas` | shared/src/ledger/gas.rs:118-121 | charges parallel runs to the transaction, with the verdict of that charge |
| `Gas.BlockGasConserved` | shared/src/ledger/gas.rs:60-105 | over any sequence of charges and finished transactions no gas is lost, and without an error both meters are within their limits |
| `BlockEpochs.AnswersAgree` | shared/src/types/storage.rs:635-678 | after any new epochs with increasing heights every answer is the one of the full history, and a height is answered if and only if it is not below the oldest known epoch |
| `BlockEpochs.KeptEpochs` | shared/src/types/storage.rs:635-657 | with a fixed age exactly the epochs are kept after which the next began no earlier than the limit |
| `BlockEpochs.RecentAnswered` | shared/src/types/storage.rs:635-678 | with a fixed age every height within it is answered |
| `BlockEpochs.IndexIsSuffix` | shared/src/types/storage.rs:635-657 | the index is always the end of the full history |
| `BlockEpochs.Epochs.NewEpoch` | shared/src/types/storage.rs:635-657 | trims and appends in place |
| `BlockEpochs.Epochs.GetEpoch` | shared/src/types/storage.rs:660-678 | scans for the epoch of a height |

## Left out

- Checks of consensus keys, staking reward addresses, validator states and address hashes in `validate`, and of the completeness of a new validator: separate branches per field. A list of changes in the model has none of them, so a new validator in it is always an error, as it is in the code without them.
- Writer and checker are not shown to agree on new validators, for the same reason; slashes are not written by transactions.
- Composition.TransactionsOfRuns: runs without slashes only, since after slashes stakes and bonds no longer add up; single transitions are covered with slashes.
- Checker.CheckWeight: at epoch zero the code aborts, or without overflow checks goes on searching from the largest epoch, where this reports that no earlier stake was found.
- Consensus keys of their own, staking reward accounts and block rewards: they only add fields that are copied.
- Solvency under slashes: the amount is taken from the aggregate stake of the current epoch and applied at the pipeline offset, so stakes and bonds no longer add up; the run theorems that allow slashes and the outcomes in any sound state say what still holds.
- Params.ActivePowerWithinTendermintLimit: products in `validate` and in slashes are exact integers; overflow of an intermediate 64-bit product is not modelled.
- Gas.VpsGas.GetCurrentGas: takes the sum of the runs as an exact integer; `Gas.SumsFit` says that it fits 64 bits wherever the code takes it on meters that have passed their limit.
- Borsh encoding, storage keys, the write log, the wasm environment and the token balances of accounts other than the system's.
- The matchmaker, governance, the other validity predicates, the address and key codecs, the clients and the command line: other parts of the repository.
