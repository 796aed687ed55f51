# DTFN: a Dafny model of the ABCI application

DTFN is a Tendermint application over an Ethereum state. Every block is
`BeginBlock → DeliverTx* → EndBlock → Commit`; `CheckTx` runs beside it. This project models that
state machine together with Tendermint's side of it and proves what holds of every run.

The parts, and the files that hold them:

- `Types.dfy`, `Ledger.dfy`, `Arithmetic.dfy`: addresses, the proof-of-stake table, balances.
- `Tendermint.dfy`: how Tendermint applies an update list, the pipeline of three validator sets (an
  update answered at height h takes effect at h + 2), the votes handed to the next block.
- `Selection.dfy`, `Strategy.dfy`: the random selection loops, the member list at an epoch boundary,
  the tracked validators, the diff sent to Tendermint, and the `Strategy` object.
- `Forks.dfy`: the fork schedule. `Rewards.dfy`: reward issuance. `Punishment.dfy`: slashing.
- `Application.dfy`: `InitChain`, `BeginBlock`, `EndBlock`, `Commit`, persistence and recovery, as
  functions on the node's state and as the `EthermintApplication` object whose methods are proved
  against them. `Genesis.dfy`, `Enrolment.dfy`: what `InitChain` establishes, and for whom.
- `Chain.dfy`: whole runs of node and Tendermint. `Driver.dfy`: the object, called as Tendermint calls
  it, makes such a run. `RunProperties.dfy`, `BlockEffects.dfy`, `Inflation.dfy`, `ShortEpochs.dfy`,
  `Restart.dfy`: what holds of all runs.
  `Scenarios.dfy`, `Witnesses.dfy`: runs that exist, and inputs for which the code goes wrong.
- `Mempool.dfy`: `CheckTx`, `DeliverTx`, the sender cache, the recheck after `Commit`, over every
  interleaving of submissions, deliveries and commits. `CheckRules.dfy`: the rules of `CheckTx`, test by
  test. `Transparency.dfy`: what that traffic means for execution and for the balances of the check
  state.

Objects whose fields the node updates are classes (`Strategy`, `WorkState`, `EthermintApplication`,
`TxNode`). Each method equates the new state with a function of the old one; the theorems about runs
are about those functions, and `Drivers.Operate` brings them back to the object. The runs they speak
of exist: `Scenarios.Open` and `Scenarios.Tell` construct some for every epoch length, and
`Inflation.SoleRun` one of every number of blocks, past the split height and with rewards on.

## What the model takes from outside

- `txfilter.PosTable` is not part of this repository (go.mod:19). It is a value with the invariant
  `TableOk`. `InsertPosItem`, `RemovePosItem` and `DropUnbonded` are written from their call sites;
  the pickers, whether a removal is accepted, and which unbonded signers have expired are parameters
  of `Config`. The pickers draw bonded signers, `TopKSigners` gives the k signers with most slots and
  `SortedSigners` all of them. Transactions are an arbitrary function on table, dirty flag and balances that keeps
  `TableOk`, keeps resolved addresses resolved, and raises the flag when it changes the table.
- Hashes do not collide: an address determines its key, a hash its transaction. Signature recovery,
  decoding and relay checks are function parameters.
- Tendermint keeps the signed power of a vote list below 2^63. A block whose selection loop would not
  stop is not part of a run; `Selection.HaltsExactly` says which ones those are.
- The mempool adds what CheckTx accepts, drops what is delivered or fails its recheck, and may submit
  anything at any time, also what it holds. The node's own pool hands over a correct derivation.
- JSON is the identity on stored fields; the address index of a table is rebuilt on loading.

## Where the code differs from what one expects

- The power recorded after a random selection stays 1000, whatever power was emitted
  (types/strategy.go:244 assigns to a loop copy); the two agree exactly for a key drawn once
  (`Strategies.RecordTracksChoice`).
- The recipient of slashed money never becomes the coinbase (app/punishment.go:87-88 assigns to a
  copy); claims are about the configured `transferTo`.
- `InitChain` answers with an empty list (app/app.go:213), so Tendermint keeps genesis validators
  that were not enrolled; one that signs brings a Commit below version 4 down
  (`Chains.RewardPanicsExactly`, `Witnesses.UnenrolledPanics`).
- `initialValidators` only ever holds the last accepted validator (app/app.go:183).
- A genesis validator that was not enrolled and that the node has not tracked since keeps its voting
  power after evidence until it bonds again, even if it had bonded and its stake was slashed
  (`RunProperties.SlashingTakesEffect`, `Witnesses.SlashedStays`).
- A negative `select_count`, which the command line accepts unchecked (cmd/dtfn/dtfn.go:145-147), makes
  a block below version 2 remove every validator, and Tendermint refuses that
  (`Chains.UpdatesAccepted`, `Witnesses.NegativeCountRefused`).
- Epochs of one or two blocks are not safe for rewards (`ShortEpochs.SafeEpochsExactly`).
- The code announces one percent of inflation a year (app/app.go:125, ethereum/eth_state.go:240). All runs
  keep that in a year of blocks if and only if the bonus of `Info` is zero, or is one and the genesis
  balance covers the blocks past height 3588000; with a larger bonus there is no year at all in which
  they do (`Inflation.OnePercentExactly`), and past that height below version 4 none does
  (`RunProperties.LateYearExceeds`).
- Nothing in the node keeps the 64-bit weight of large votes from wrapping to zero, and then the division
  fails (`Rewards.DivisionFailsExactly`, `Rewards.LargeVotesDivideByZero`); below 2^63 it never does.
- For a target that is both a relay target and an authorisation target, the relayer's balance is checked
  and the sender's is debited (app/app.go:711-754), so a check balance can become negative
  (`Transparency.SolventExactly`, `Transparency.OverdrawnSender`).
- For a target of both relay kinds, a signature that does not carry over to the inner transaction with
  the same sender breaks the sender cache (`Transparency.TransparentExactly`). If such a transaction has
  a sender on both paths, it can be pooled twice, and the next recheck brings the node down
  (`Transparency.NeverPanicsExactly`).

## Model

| member | source | states |
|---|---|---|
| Chains.RunTracks | types/strategy.go:134-323 | in any run, for any epoch length: tracked validators are in Tendermint's pending set, the rest are genesis validators InitChain did not enrol and never grow; if all were enrolled the key sets are equal after every block |
| Chains.StepTracks | types/strategy.go:239-303 | one block: every chosen validator is pending with the emitted power, pending keys are the old untracked ones plus the new record |
| Chains.RewardPanicsExactly | ethereum/eth_state.go:255-284 | in any run a Commit panics if and only if the version is below 4 and a signed, powered voter is unknown; with epochs of at least three blocks such a voter is an unenrolled genesis validator |
| Chains.NoRewardPanic | app/app.go:408-415 | with epochs of at least three blocks and every genesis validator enrolled no Commit of any run panics, across boundaries, unbonding, slashing, expiry and the h + 2 delay |
| Chains.ProgressExactly | app/app.go:404-442 | in such a run an offered block has a successor chain if and only if someone is bonded in its snapshot and (at a boundary or with a count that is not negative) |
| Chains.Answer | types/strategy.go:134-146 | every block Tendermint may propose has an update list that answers it |
| Chains.NeverEmpty | types/strategy.go:239-303 | in any run Tendermint's pending set is never empty |
| Witnesses.UnenrolledPanics | app/app.go:166-213 | for every epoch length a run of one block in which an unenrolled genesis validator signs, and the next Commit panics |
| ShortEpochs.SafeEpochsExactly | app/app.go:408-434 | the previous claim holds for an epoch length if and only if it is at least 3 |
| Chains.UpdatesAccepted | types/strategy.go:148-323 | Tendermint accepts the update list of a block if and only if someone is bonded and (at a boundary or with a count that is not negative), or nothing is tracked, or something pending is untracked; the only refusal is the empty set |
| Strategies.BoundaryChoice | types/strategy.go:263-294 | a boundary gives each member its slots as power; at heights[3] it chooses exactly the bonded addresses, at any other boundary min(limit, pool) members, 100 for a limit that is not positive, and nobody left out has more slots |
| Strategies.OrdinaryChoice | types/strategy.go:148-236 | draw i is the key of the table's pick for the block's seed and i, or without a seed for the height i ahead; the chosen are the distinct keys drawn, from version 2 on exactly as many as asked for with the drawing stopped there, before that as many draws as asked for |
| BlockEffects.RunBoundary | types/strategy.go:263-303 | after every boundary of a run with everyone enrolled Tendermint's pending set is such a choice |
| Witnesses.NegativeCountRefused | cmd/dtfn/dtfn.go:145-147 | with any negative count and epochs of two blocks or more the first list of a fully enrolled and bonded chain is refused |
| Drivers.ProcessBlock | app/app.go:360-472 | the ABCI calls of a block on the object are a step of the chain, and fault exactly when the step's rewards do |
| Drivers.Launch | app/app.go:107-214 | setting up the object, Info and InitChain give the initial chain of a run, or fail exactly when InitChain panics |
| Drivers.WorkThrough | app/app.go:360-472 | the object's states over a list of blocks, answered in order, are a run; it stops early only at a refused list or a fault |
| Drivers.Operate | app/app.go:158-472 | from genesis on the object answers the given blocks in order, and that run begins as the run theorems require; with epochs of three blocks or more and all enrolled the object never faults |
| Restarts.RestartUnnoticed | app/utils.go:72-210 | after any Commit of any run the store loads, and the restarted node accepts the same blocks, with the same updates, rewards and next state as the live one |
| Restarts.SameFutures | app/utils.go:72-152 | the live and the restarted node have the same continuations |
| Restarts.RunSaves | app/utils.go:154-210 | after every Commit of any run the three stored slots hold the live data, although the dirty-flag rule skips writes |
| Restarts.RestartVersion | app/utils.go:113-121 | right after a restart the node has the version the schedule gives for its height, and from the first scheduled height on that of the live node |
| Application.StoreRoundTrip | app/utils.go:129-146 | loading a stored table rebuilds it, index included |
| RunProperties.SlashingTakesEffect | app/punishment.go:90-111 | a validator named by evidence and not bonded again is out of the snapshot and the record from the next boundary on; it is in the pending, a block later the running, two blocks later the voting set if and only if it was pending without being tracked when the boundary came, and then with the same power; such a one is an unenrolled genesis validator |
| Witnesses.SlashedStays | app/punishment.go:90-111 | for every epoch length of at least two blocks a run in which a bonded validator is slashed at the boundary and stays pending with its power |
| RunProperties.YearlyInflation | ethereum/eth_state.go:235-242 | in any run a stretch of blocks mints at most the sum of its block caps: at most 4 percent of the genesis balance over any 6307200 blocks, at most 1/175 of it up to height 3588000 |
| RunProperties.LateYearExceeds | app/app.go:123-127 | in any run 6307200 blocks past height 3588000 below version 4 mint more than one percent, if the bonus is not zero |
| Inflation.InflationExactly | ethereum/eth_state.go:232-289 | for every genesis balance InitChain accepts, all runs mint at most a bound in a stretch of blocks if and only if the caps of its blocks, without the first block of the chain, add up to at most that bound |
| Inflation.OnePercentExactly | app/app.go:123-127 | for the year of blocks after any block: all runs keep one percent if and only if the bonus is zero, or is one and the genesis balance is at least 200 for each block past height 3588000 |
| Inflation.CapReached | ethereum/eth_state.go:232-289 | a run with rewards on in every block in which a given stretch mints exactly its cap |
| RunProperties.SupplyLaw | ethereum/eth_state.go:97-107 | when transactions conserve money, the total balance after any block of a run is the genesis total plus all that was minted if slashed money is transferred, at most that if it is burned, and nobody is in debt |
| RunProperties.BlockMints | ethereum/eth_state.go:97-107 | each block of a run mints nothing from version 4 on, otherwise between zero and the bonus of its height, and past height 3588000 between one bonus and two |
| RunProperties.RunVersions | app/app.go:373-380 | from the first scheduled height on the block version never goes down and equals the one Info reports |
| RunProperties.ProposerResolves | types/strategy.go:351-367 | in any run, for any epoch length, a proposer that does not resolve is an unenrolled genesis validator; the reward goes to the fixed account under version 4, else to the beneficiary, and to nobody exactly if the proposer does not resolve or was slashed |
| Rewards.CommitCredits | ethereum/eth_state.go:243-289 | below version 4 a paid Commit gives every account the bonus if it is the coinbase and the height is above 3588000, and the shares of the voters it benefits from, and nothing else; from version 4 on nothing |
| BlockEffects.ProposerPaid | ethereum/eth_state.go:243-289 | in every block of any run below version 4 that bonus is the one Info derives from the genesis balance, and goes to the beneficiary of the block's proposer, or to the fixed account if it does not resolve or was slashed |
| BlockEffects.ExpiryExactly | app/app.go:408-415 | an unbonded signer keeps its item and its address through EndBlock if and only if the block is no boundary or the signer has not expired; the new snapshot still has it |
| BlockEffects.RunRemembers | app/app.go:408-415 | in any run an address keeps resolving to its signer, and evidence against it is found, until the first boundary at which the signer is unbonded and has expired, which forgets it |
| BlockEffects.StepWrites | app/utils.go:154-210 | between two boundaries a Commit writes only the record of the height, unless evidence or a transaction of that block touched the table |
| Strategies.DiffRefinesReplacement | types/strategy.go:239-252 | applying a diff replaces exactly the tracked validators by the chosen ones with their powers and leaves the others |
| Strategies.DiffAccepted | types/strategy.go:293-303 | Tendermint accepts a diff if and only if it does not empty the set; no repeats, no negative power, no removal of a stranger |
| Strategies.RemovalOrderIrrelevant | types/strategy.go:240-252 | any two map orders of the removals give the same result |
| Strategies.ChosenBonded | types/strategy.go:134-291 | both producers choose bonded validators of the snapshot, each once, with positive power, and someone if and only if the pool is not empty and (at a boundary or with a count that is not negative) |
| Strategies.RecordTracksChoice | types/strategy.go:239-303 | the record names exactly the chosen validators and their signers; at a boundary its powers are the emitted ones; between boundaries it says 1000, 999 plus the number of draws was emitted, and these agree if and only if the key was drawn once |
| Strategies.Strategy.GetUpdatedValidators | types/strategy.go:134-146 | the emitted list is a diff from the old record to the choice of the height, and the new record is that choice |
| Strategies.Strategy.EnterSelectValidators | types/strategy.go:148-261 | the same for random selection, on both loops |
| Strategies.Strategy.BlsValidators | types/strategy.go:263-323 | the same for the member list of a boundary |
| Strategies.Strategy.DrawUntil | types/strategy.go:166-200 | the version >= 2 loop stops after exactly the first draw that completes the count, with the selection of those draws |
| Strategies.Strategy.DrawTimes | types/strategy.go:202-236 | the version < 2 loop makes exactly the asked number of draws |
| Selection.HaltsExactly | types/strategy.go:167-200 | the version >= 2 loop stops if and only if the count is not negative and some prefix of the draws has that many distinct keys |
| Selection.NeverHaltsBeyondPool | types/strategy.go:154-167 | a count above the pool size never stops |
| Selection.DrawAccounting | types/strategy.go:184-199 | the powers over 999 add up to the number of draws |
| Selection.FirstSeenOrder | types/strategy.go:195-197 | a selected key stands at its place because it was first drawn right after exactly the keys before it |
| Selection.ForksAgreeOnOrder | types/strategy.go:166-236 | on the same draws the version < 2 selection is a prefix of the version >= 2 one, whose last member has power 1000 |
| Tendermint.ApplyAt | types/strategy.go:246-249 | a list without repeats does to each address what its entry says |
| Rewards.WorkState.AccumulateRewards | ethereum/eth_state.go:232-294 | the two loops pay what the reward function says, or stop with its fault |
| Rewards.AccumulateFaultsExactly | ethereum/eth_state.go:255-284 | on sane votes the only fault is an unknown voter, if and only if there is one below version 4 |
| Rewards.DivisionFailsExactly | ethereum/eth_state.go:248-265 | on any vote list the division fails if and only if the version is below 4, the signed power is a multiple of 2^64 and the first vote to be paid is positive |
| Rewards.LargeVotesDivideByZero | ethereum/eth_state.go:248-265 | four signed votes of 2^62 make it fail |
| Rewards.WeightSumWraps | ethereum/eth_state.go:248-253 | the 64-bit weight is the true one modulo 2^64 |
| Rewards.RewardCredits | ethereum/eth_state.go:285-289 | every account gains exactly the shares of the voters it benefits from, the total their sum |
| Rewards.VotersShare | ethereum/eth_state.go:262-289 | voters together get the pool less its remainder from version 3 on, one average a signer before |
| Rewards.BlockIssuance | ethereum/eth_state.go:232-289 | a paid Commit raises the total balance by exactly the minted amount |
| Rewards.MintedBounds | ethereum/eth_state.go:235-246 | lower and upper bounds of that amount by height and version; version < 3 never mints more than version 3 |
| Punishments.DoPunish | app/punishment.go:86-116 | the loop does to table, flag and balances what slashing each evidence in turn does |
| Punishments.SlashedTable | app/punishment.go:90-111 | for any evidence the table afterwards has exactly the named bonded signers moved out without slots; the invariant and the index stay |
| Punishments.PunishPanicsExactly | app/punishment.go:95-111 | slashing panics if and only if the removal of a bonded signer is refused |
| Punishments.PunishExactly | app/punishment.go:25-84 | one punishment takes the whole balance, or the fixed amount as far as the balance goes, from that account alone, and gives it to the recipient under Transfer |
| Punishments.EvidenceExactly | app/punishment.go:90-113 | evidence punishes the signer of a known address, bonded or not, and moves a bonded one out without slots; evidence against an unknown address does nothing |
| Punishments.SlashingConserves | app/punishment.go:62-84 | transfer conserves the total balance, burning never raises it, nobody goes below zero |
| Punishments.FullSlashingConfiscates | app/punishment.go:44-84 | under Percent100 each named signer but the recipient ends with nothing, the recipient gains exactly their balances, nobody else changes |
| Punishments.SlashingRaisesFlag | app/punishment.go:97-104 | the dirty flag is up exactly when it was or the table changed |
| Forks.ScanVersion | app/app.go:113-120 | the backward scan returns the version of the schedule |
| Forks.VersionIsGreatestReached | app/app.go:373-380 | that version stands at the greatest index whose height is reached |
| Forks.ScansAgree | app/utils.go:113-121 | the three scans agree if and only if the first height is reached |
| Forks.VersionsNeverGoBack | version/version.go:53-61 | with non-decreasing versions a later height never has an older version |
| Application.EthermintApplication.InitChain | app/app.go:158-214 | the enrolment loop, the first snapshot and the first write |
| Application.EthermintApplication.BeginBlock | app/app.go:362-400 | resets the flag, scans the version, sets the coinbase, takes the votes and slashes |
| Application.EthermintApplication.EndBlock | app/app.go:404-435 | turns the epoch, then answers with a diff to the choice made on the new snapshot |
| Application.EthermintApplication.Commit | app/app.go:439-442 | pays and writes, or faults and leaves the store alone |
| Application.EthermintApplication.SetPersistenceData | app/utils.go:154-210 | which slots are written when |
| Application.EthermintApplication.InitPersistData | app/utils.go:72-152 | no data, missing snapshot, or the restored strategy |
| Application.EthermintApplication.Info | app/app.go:107-127 | the version reported and the bonus set |
| GenesisProofs.FoundedFacts | app/app.go:166-211 | after InitChain the tracked validators are exactly the bonded ones and all are genesis validators |
| Enrolment.InitChainExactly | app/app.go:158-211 | InitChain succeeds if and only if the genesis balance does not vanish in 64 bits, a slot has a price below version 4 and some validator joins; table, snapshot and record then hold exactly the validators that joined (an account, a slot or more, address and signer not used before), each under its account's signer with its key, slots, the account's beneficiary, height 1 and its genesis power |
| GenesisProofs.GenesisSlotBound | app/app.go:793-804 | slots handed out stay within T / (T / U), hence within ThresholdUnit whenever T % U < T / U |
| GenesisProofs.UnitsExactly | app/utils.go:62-70 | T / (T / U) <= U if and only if T % U < T / U; T >= U * U is enough |
| GenesisProofs.SlotBoundFails | app/app.go:793-804 | otherwise one signer owning everything gets more than ThresholdUnit slots |
| Mempools.HistoryStocked | app/app.go:532-787 | in every interleaving, resubmissions included, when no transaction has two senders: undelivered pooled transactions are cached, none is pooled twice, nonces are contiguous from the committed ones, no recheck panics |
| Transparency.NeverPanicsExactly | app/app.go:558-573 | no recheck of any history panics, and the pool is always stocked, each if and only if no plausible transaction has two senders |
| Mempools.PooledRefused | app/app.go:698-706 | over a contiguous pool, a transaction the pool holds is refused when it comes again under its sender |
| Mempools.RecheckStocks | app/app.go:558-573 | a recheck of a cached list never misses the cache, gives up only the entries that fail and keeps a cached list |
| Mempools.HistoryKeeps | app/app.go:532-787 | in every interleaving, resubmissions included, when the two paths derive alike: all of the above, cached senders equal fresh ones and pooled transactions resolve |
| Mempools.RecheckKeeps | app/app.go:558-573 | what a recheck after Commit keeps is contiguous from the newly committed nonces |
| CheckRules.AcceptsExactly | app/app.go:532-787 | CheckTx of any kind accepts if and only if the size is at most 32768, the sender is known, the value is not negative, the gas within the limit, the nonce the next one, the cost covered by the payer, and no filter objects |
| CheckRules.RefusesExactly | app/app.go:534-768 | otherwise it refuses with the code of the first test that fails, or panics on a recheck without cache entry; the check state stays, and only a failed recheck gives up its cache entry |
| CheckRules.AcceptanceEffects | app/app.go:736-783 | after acceptance every account's balance moves by exactly the cost if it is the debtor and the value if it is the target; a plain sender is not debited; only the sender's nonce moves and the derivation is cached |
| CheckRules.CheckDerivesExactly | app/app.go:574-669 | the sender, the inner transaction and the relayer of each of the three kinds of targets, as an if and only if |
| CheckRules.DeliverDerivesExactly | app/app.go:254-347 | the same for DeliverTx |
| CheckRules.DerivationCodes | app/app.go:574-669 | a failed derivation has the sequence code exactly at a mismatch of inner and outer transaction |
| CheckRules.RecheckExactly | app/app.go:558-573 | a recheck keeps exactly the transactions that pass every test in the state the earlier ones leave |
| CheckRules.WithoutExactly | app/app.go:454-454 | what remains of the pool after a block is exactly what was not delivered, in order |
| Mempools.DisjointPathsAgree | app/app.go:574-669 | the check path and the delivery path accept the same transactions with the same sender unless the target is of both relay kinds |
| Mempools.OverlapAgreesExactly | app/app.go:576-609 | for a target of both kinds they agree if and only if the outer signature carries over to the inner transaction with the same sender |
| Mempools.ConsistentExactly | app/app.go:254-347 | all plausible transactions are derived alike if and only if signatures carry over for those to targets of both kinds; none has two senders if and only if they do for those that both paths resolve |
| Transparency.TransparentExactly | app/app.go:254-347 | the cache is faithful in every history, and every history executes as a node without a cache would, each if and only if the two paths derive alike |
| Transparency.CachelessRefinement | app/app.go:243-358 | over any history, when the two paths derive alike, the state being built is the one of a node without mempool and cache |
| Transparency.NodesAgree | app/app.go:243-358 | when the two paths derive alike, two nodes with the same deliveries and any other traffic reach the same state |
| Transparency.OverlapBreaksTransparency | app/app.go:576-609 | an environment in which both fail and a recheck panics |
| Transparency.SolventExactly | app/app.go:708-779 | an accepted CheckTx of any kind leaves every check balance non-negative, unless and only unless the target is both a relay and an authorisation target and the sender cannot bear the cost |
| Transparency.OverdrawnSender | app/app.go:711-754 | a remote transaction that is derived, accepted and leaves its sender at -10 |
| Transparency.HistorySolvent | app/app.go:532-787 | with the two kinds of targets apart no interleaving leaves a negative check balance |
| Mempools.TxNode.CheckTx | app/app.go:532-787 | remote, local and recheck on the node's state and cache |
| Mempools.TxNode.DeliverTx | app/app.go:243-358 | executes the cached or a fresh derivation and drops the cache entry |
| Mempools.TxNode.CommitAndRecheck | app/app.go:454-454 | the check state is reset and the remaining transactions are rechecked in order |

## Left out

- EVM execution, gas, tries, databases, block hashing and headers: library code, an arbitrary function here.
- Signature recovery, RLP and hex decoding, undecodable transaction bytes: parameters.
- The internals of the pickers and the BLS protocol: arbitrary functions into the bonded items.
- A positive count with an empty pool: the pickers are undefined there.
- AuthTable, its events and its persistence; `PPChainAdmin`, `Bigguy` and the other globals.
- `workState` bookkeeping of transactions, receipts and logs; `Query`, RPC, HTTP, logging.
- Tendermint's cap on total voting power appears only as the bound on a vote list.
- Parsing of the height and version strings (version/version.go:49-62).
- A supply law for the check state: plain transfers are credited without a debit, so there is none.
- The list of BLS keys returned at a boundary: the same loop over the same signers.
