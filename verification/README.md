# A verified model of the kaswallet money path

This project models the daemon of a Kaspa wallet: how it finds its addresses, keeps an index of its
unspent coins, chooses coins for a payment, builds the transaction, splits and merges it when it is
too heavy, signs the batch, hands it to the node and updates its index. It also models the wire form
of the wallet's transactions. `dafny verify dfyconfig.toml` checks all of it.

## How it is laid out

- `Wrappers`, `Arithmetic`, `Sequences`: results, arithmetic and sequence vocabulary.
- `Model`, `Derivation`, `Mass`, `Hex`: addresses, scripts, transactions, derivation paths and their
  text, transaction mass and fees, hexadecimal text.
- `Ledger`: what a transaction, and a list of them, does to a set of coins.
- `Generate`, `Selection`, `Compounding`, `Compounder`: the transaction generator. Pure modules hold
  the specification; the methods with the source's loops are proved equal to it.
- `SelectionTheorems`, `CompoundingFacts`, `SplitRun`, `CompoundingTheorems`, `BatchTheorems`,
  `ExtrasTheorems`, `Termination`, `FeeTheorems`, `FeeSufficiency`, `FewSpare`, `PaidAhead`,
  `StepSuccess`, `Completion`: what is true of the generator, and when it succeeds; `DustExample`,
  `EndlessCompounding`, `DoubleSpendExample`, `FeeCapExample`: inputs on which it does not do what one
  would expect; `MergeExample`: one on which it does.
- `UtxoIndex`, `NodeView`, `Duplicates`, `Incoming`, `MempoolReplay`, `UtxoManager`: the coin index, in
  place in a class.
- `AddressBook`, `AddressManager`, `SyncManager`, `Handlers`: addresses, their discovery and the
  handlers that deal in them, in place in classes; `Discovery`, `DiscoveryRuns`: once more as a state
  machine over every interleaving of the sync loop and the requests in flight.
- `Sign`, `SigningTheorems`, `Submit`, `GetBalance`, `EndToEnd`, `Send`: the services; `WalletRuns`:
  sends, refreshes and new addresses in any order.
- `ProtoConvert`: the wire codec; `WireMeaning`: what its messages say.

Transaction ids are content-addressed: the id of a transaction the wallet builds is a free constructor
over what the transaction spends, its outputs and its payload. That ids are fresh is therefore proved,
from the one hypothesis that no coin the wallet holds was spent to build another (`Ledger.Unspent`).

Upstream parts enter as parameters: mass calculators as affine functions with arbitrary coefficients,
key derivation, address text, signature hashes, signatures and their verification as arbitrary
functions, the node as arbitrary answers. Hypotheses about them (address text reads back, the
wallet's addresses are those of its key, the node answers only for what it was asked) are named
predicates in the statements that need them.

## What the code does not do

These are properties the code was meant to have, or that one would expect, with the exact condition
under which it has them.

- Compounding need not end. `EndlessCompounding.RequestNeverCompletes` gives a request whose merge
  adds as many coins at every level as splitting removes. `Termination.EndsIffExtrasStop`: it ends
  exactly when only finitely many levels add coins, which is always so for a send-all and for
  preselected coins. For a fixed amount `FewSpare.EndsWhenFewSpare` gives a condition on parameters,
  request and wallet: the fewest inputs that are too heavy must exceed the splits they make by more
  than there are spare coins. The endless request misses it by one coin
  (`EndlessCompounding.OneSpareCoinTooMany`).
- A batch may spend a coin twice. Each level looks for additional coins as if no level above had
  added any. `DoubleSpendExample.SpendsACoinTwice` is a request on which it does.
  `ExtrasTheorems.RunsIffExtrasDistinct`: a batch runs over the wallet's coins exactly when no coin is
  added at two levels. `FewSpare.OneLevelIsEnough` gives a condition on parameters, request and
  wallet: the splits of the original and all spare coins together must make a light merge. However
  many coins are spare, `PaidAhead.AddsNothingWhenPaid`: no coin is added at all when the coins selected
  are worth the amount and all that compounding can cost, which enough change sees to
  (`PaidAhead.ChangePaysAhead`).
- Dust hides money. A coin worth less than its own fee is taken first and lowers what is left.
  `SelectionTheorems.MissesMoneyIff` says exactly when a payable amount is refused;
  `DustExample.DustHidesMoney` is a wallet of two coins.
- `max_fee` is a cap for each estimate. `FeeSufficiency.CapIsPerCoin`: the original transaction pays
  one estimate for each coin, and stays within `max_fee` exactly when that many estimates do.
  `FeeSufficiency.CapHoldsIffStopsInTime` says the same of the coins before any is selected;
  `FeeCapExample.PaysMoreThanItsCap` is a request that pays more than twice its cap although no
  estimate reaches it.
- A refresh does not remove duplicates. `Duplicates.GatheredOnceIff`: a coin is gathered twice exactly
  when the response names, at two spots, a coin the wallet keeps. `Duplicates.GatheredTwice`: a
  mempool transaction that pays two of the wallet's addresses, listed by the node under both.
  `UtxoIndex.RebuiltAgrees`: the rebuilt index is valid exactly when no outpoint was gathered twice.
- A merge that adds coins makes no change. `CompoundingFacts.MergeFeeIsKept`: everything beyond the
  amount goes to the miner; `CompoundingFacts.SurplusIsBurned`: that is the fees and less than what the
  last added coin brought.

The four examples are requests to a daemon with upstream's mass coefficients, on the native subnetwork,
with the transient cofactor of devnet. Their key file holds one public key and asks for 28 signatures,
which makes four inputs too heavy; the amounts are those of a fee rate of 1000 sompi a gram.

## Model

| member | source | states |
|---|---|---|
| Derivation.PathTextInjective | daemon/src/transaction_generator.rs:842-887 | a derivation path can be read back from its text, so dropping paths by text drops only equal paths |
| Derivation.CalculateAddressPath | daemon/src/address_manager.rs:189-209 | it fails exactly for a hardened index, with one error |
| Derivation.PathIsWritten | daemon/src/address_manager.rs:189-209 | the text of the path is the letter m, the cosigner in a multisig wallet, 0 or 1 for the keychain, and the index, in that order |
| Derivation.PathDeterminesAddress | daemon/src/address_manager.rs:189-209 | a path determines index and keychain, and in a multisig wallet the cosigner |
| AddressBook.TextDeterminesIndex | daemon/src/address_manager.rs:150-209 | with injective derivation, two wallet addresses with one text have one index and keychain |
| AddressBook.NewReceiving | daemon/src/address_manager.rs:63-88 | a new address is one past the last used external index and registered; it exists while that index is unhardened; the counters fall exactly when the counter wraps |
| AddressBook.ChangeFor | daemon/src/address_manager.rs:228-265 | the change address is the first sender, index 0 or a new index; whatever is returned derives from its key and is registered; the counters fall exactly when the counter wraps |
| AddressBook.ChangeIs | daemon/src/address_manager.rs:228-265 | for an existing change address that is index 0 of the internal keychain, for a new one the index past the last used; it exists while unhardened; only the internal counter moves, and only for a new one |
| AddressBook.AbsorbedIffAsked | daemon/src/address_manager.rs:108-148 | the node's answer is taken in exactly when every address it gives a balance other than zero was asked about, and none has two such lines; otherwise the lookup traps |
| AddressBook.AbsorbedFacts | daemon/src/address_manager.rs:108-148 | exactly the used addresses are registered, as what was asked for; the last-used indexes never fall, reach every used address and move only to one |
| AddressBook.UsedAreFunded | daemon/src/address_manager.rs:114-118 | the used addresses are exactly those with a line whose balance is not zero |
| AddressBook.ZeroChangesNothing | daemon/src/address_manager.rs:116-118 | a line with a balance of zero changes nothing, wherever it stands in the answer |
| AddressBook.FundedIsRegistered | daemon/src/address_manager.rs:120-143 | a line with a positive balance registers its address as what was asked for, and its keychain's last-used index reaches it |
| AddressManager.AddressManager.KaspaAddressFromWalletAddress | daemon/src/address_manager.rs:150-187 | the same address with or without the cache, and every cached address is what derivation gives |
| AddressManager.AddressManager.WalletAddressFromString | daemon/src/address_manager.rs:42-46 | a registered text maps to a wallet address that derives to it |
| AddressManager.AddressManager.NewAddress | daemon/src/address_manager.rs:63-88 | result and new state are those of the specification; the map and cache stay true to derivation |
| AddressManager.AddressManager.ChangeAddress | daemon/src/address_manager.rs:228-265 | result and new state are those of the specification; the map and cache stay true to derivation |
| AddressManager.AskedIsUnhardened | daemon/src/address_manager.rs:90-106 | a non-empty range that could be asked for ends below the hardened indexes |
| AddressManager.AddressManager.AddressesToQuery | daemon/src/address_manager.rs:90-106 | the three nested loops yield every address of every cosigner and keychain in the range and no other, and fail exactly when the range reaches the hardened indexes |
| AddressManager.AskedAre | daemon/src/address_manager.rs:90-106 | a text is asked about exactly when it is that of a cosigner's address, of either keychain, with an index in the range |
| AddressManager.AddressManager.UpdateAddressesAndLastUsedIndexes | daemon/src/address_manager.rs:108-148 | the loop takes the answer in as specified, or traps where the specification does; `AddressBook.AbsorbedIffAsked`, `ZeroChangesNothing` and `FundedIsRegistered` say in balances what that is |
| SyncManager.ScanGoesOn | daemon/src/sync_manager.rs:191-266 | one more query extends what a scan from index 0 has found and keeps the last-used bound |
| SyncManager.ReliableQueryPasses | daemon/src/sync_manager.rs:231-266 | below the hardened indexes the answer of a node that gives a balance other than zero to exactly the funded addresses it was asked about, in one line each, is always taken in |
| SyncManager.SyncManager.CollectAddresses | daemon/src/sync_manager.rs:231-266 | exactly how a query ends: it asks for exactly the range unless that is hardened, fails if the node does or names an address wrongly, and otherwise takes the answer in |
| SyncManager.SyncManager.CollectRecentAddresses | daemon/src/sync_manager.rs:191-212 | with a truthful node that answers, the scan passes whenever the greatest used or funded index is 2000 below the hardened ones; it then ends at the first multiple of 1000 that is 1000 past the last used index, so after a number of queries bounded by the greatest used or funded index, and every funded address below that end is registered and reached; a scan that fails failed at a query or at the greatest u32 |
| SyncManager.SyncManager.CollectFarAddresses | daemon/src/sync_manager.rs:214-229 | with a truthful node that answers, it passes up to the hardened indexes; the next 100 indexes are then found and the scanned prefix grows by 100; a scan that fails changes no prefix |
| SyncManager.GapLimitSuffices | daemon/src/sync_manager.rs:191-212 | a wallet whose funded indexes leave no gap of 1000 is found whole, however far they reach |
| Discovery.StepGrows | daemon/src/sync_manager.rs:77-266 | no step of any handler or of the sync loop lowers a last-used index or the scanned prefix, except exactly the steps that wrap a counter |
| Discovery.NoCounterWraps | daemon/src/sync_manager.rs:57-67 | whatever the key file says and the node answers, and however requests interleave, no step of any run wraps a counter: the check each request passes first sees to that, although its reads are separate and the counters may move before the request acts |
| Discovery.StepKeepsInvariant | daemon/src/sync_manager.rs:77-266 | every step of the loop, of a request's check or of a handler keeps: all indexes below the scanned prefix answered for and unhardened; the registered addresses are those seen used and those given out, and their keychain's last-used index has reached each; handed-out indexes at most the last used |
| Discovery.RunKeepsInvariant | daemon/src/sync_manager.rs:77-266 | that invariant holds after every interleaving of the sync loop and any requests in flight |
| Discovery.RunGrows | daemon/src/sync_manager.rs:77-266 | over every run neither last-used index, nor the scanned prefix, nor what is registered shrinks |
| Discovery.NewAddressIsNew | daemon/src/service/new_address.rs:6-19 | whatever the interleaving, the address a request is about to be given has an index never handed out, and is not registered: never seen used, never given out, for receiving or for change |
| Discovery.BareOperationRepeats | daemon/src/address_manager.rs:63-68 | the bare operation rests on that check: asked twice with its counter at the greatest u32, it fails and then hands out index 1 |
| Discovery.AloneServedIffSynced | daemon/src/service/common.rs:26-35 | a request with nothing else going on is served exactly when the wallet is in sync, and otherwise changes nothing |
| Handlers.NewAddress | daemon/src/service/new_address.rs:6-19 | refused while not in sync; else the specified address and state, and no counter falls |
| Handlers.GetAddresses | daemon/src/service/get_addresses.rs:8-31 | refused while not in sync; else the receiving addresses from index 1 to the last used one, without failure while the scan is unhardened |
| DiscoveryRuns.SyncedMeansScanned | daemon/src/sync_manager.rs:57-67 | read at three different moments, a positive answer still means every index up to the last used one had been answered for |
| DiscoveryRuns.IsSyncedMeansScanned | daemon/src/sync_manager.rs:57-67 | the method itself: when it says yes, every index up to the last used one has been answered for |
| DiscoveryRuns.InSyncIsUnhardened | daemon/src/sync_manager.rs:191-266 | over every run the scan stays below the hardened indexes, so in sync every address up to the last used index derives |
| DiscoveryRuns.RecentScanIsRun | daemon/src/sync_manager.rs:191-212 | the recent scan, query by query, is a run of the state machine that ends with the same addresses and prefix |
| DiscoveryRuns.FarScanIsRun | daemon/src/sync_manager.rs:214-229 | so is the far scan |
| NodeView.ExcludedOutpoints | daemon/src/utxo_manager.rs:137-144 | the outpoints skipped are exactly those a mempool transaction spends |
| NodeView.ConfirmedUtxos | daemon/src/utxo_manager.rs:152-188 | confirmed coins, without spent and covenant-bound ones; an unregistered address traps |
| NodeView.ReceivedUtxos | daemon/src/utxo_manager.rs:190-240 | mempool outputs to the wallet, as specified; missing verbose data traps; `Incoming.GatheredAre` says in the answer's fields which coins that makes |
| Incoming.GatheredAre | daemon/src/utxo_manager.rs:130-240 | a refresh fails exactly on an answer it cannot read; otherwise it gathers exactly the coins the node confirms, with its amount, script, score and origin, and the outputs of listed mempool transactions, flagged unconfirmed, with their value and script; without covenant-bound ones and those a listed transaction spends |
| Incoming.AppliedIs | daemon/src/utxo_manager.rs:56-103 | applying a transaction removes what it spends, adds its outputs to registered addresses with their value and script, confirmed and spendable at once, and changes nothing else |
| Incoming.RefreshedCoinsAre | daemon/src/utxo_manager.rs:242-262 | after a refresh every coin is one the node confirms, one it lists as incoming, or an output of one of the wallet's own transactions put back |
| Incoming.OnlyConfirmedIsSpent | daemon/src/utxo_manager.rs:219-234 | at no score is a coin that is merely listed as incoming a candidate of a selection or of a merge: payments spend confirmed coins and the wallet's own outputs only |
| Duplicates.ListedTwice | daemon/src/utxo_manager.rs:190-240 | a transaction listed under two addresses puts a duplicate outpoint into the refresh |
| Duplicates.GatheredOnceIff | daemon/src/utxo_manager.rs:130-240 | a refresh gathers no coin twice exactly when the response names no coin that the wallet keeps at two spots |
| Duplicates.GatheredTwice | daemon/src/utxo_manager.rs:190-240 | a response that is taken in and gathers two coins twice |
| NodeView.DistinctGathersOnce | daemon/src/utxo_manager.rs:130-240 | a response that names no coin twice, lists no transaction twice and confirms no output of a listed one is gathered without duplicates |
| UtxoIndex.InsertAgrees | daemon/src/utxo_manager.rs:105-114 | insertion at any order-keeping position keeps list and map in agreement exactly when the outpoint is new |
| UtxoIndex.RemoveAgrees | daemon/src/utxo_manager.rs:120-128 | removal keeps list and map in agreement |
| UtxoIndex.SortIsStable | daemon/src/utxo_manager.rs:264-267 | sorting by amount keeps coins of equal amount in order, for every amount |
| UtxoIndex.RebuiltAgrees | daemon/src/utxo_manager.rs:242-275 | the rebuilt list and map agree exactly when no outpoint occurs twice; even then nothing in the map is missing from the list |
| UtxoIndex.WorthOfList | daemon/src/utxo_manager.rs:105-128 | the list and the map are worth the same |
| UtxoManager.GatheredIsRegistered | daemon/src/utxo_manager.rs:146-240 | every coin a refresh takes in sits at a registered address |
| UtxoManager.UtxoManager.BinarySearchByAmount | daemon/src/utxo_manager.rs:107-112 | a position with an equal amount, or the one place where the amount belongs |
| UtxoManager.UtxoManager.InsertUtxo | daemon/src/utxo_manager.rs:105-114 | both forms gain the coin; they still agree exactly when its outpoint was new |
| UtxoManager.UtxoManager.RemoveUtxo | daemon/src/utxo_manager.rs:120-128 | it passes exactly when the outpoint is in the map; both forms lose it and still agree |
| UtxoManager.UtxoManager.ApplyMempoolTransaction | daemon/src/utxo_manager.rs:56-103 | it passes exactly when every input is held and none repeats; inputs go, outputs to registered addresses come, nothing else changes; the index stays valid when the new outpoints are new |
| UtxoManager.UtxoManager.AddMempoolTransaction | daemon/src/utxo_manager.rs:51-54 | the same, and the transaction joins the mempool list |
| UtxoManager.UtxoManager.ApplyMempoolTransactionsAfterUpdate | daemon/src/utxo_manager.rs:249-262 | list and coins become those of the greedy replay; no removal traps; the index stays valid over unspent coins |
| UtxoManager.UtxoManager.UpdateUtxoSet | daemon/src/utxo_manager.rs:130-247 | it passes exactly when nothing needed is missing from the response; coins and mempool list are the replay over the rebuilt map; the index is valid when no outpoint was gathered twice, no gathered coin descends from another and every mempool transaction spends something |
| MempoolReplay.KeptIsGreedy | daemon/src/utxo_manager.rs:249-262 | transaction i is kept exactly when its inputs are all present in the state the ones kept before it lead to |
| MempoolReplay.KeptIsSubsequence | daemon/src/utxo_manager.rs:249-262 | the kept list is a subsequence of the old one |
| MempoolReplay.KeptReplays | daemon/src/utxo_manager.rs:249-262 | the kept transactions replay one after another and lead to the coins left |
| MempoolReplay.KeptTwice | daemon/src/utxo_manager.rs:249-262 | replaying the kept list over the same coins gives the same list and coins: a second refresh with the same response changes nothing |
| MempoolReplay.KeptUnspent | daemon/src/utxo_manager.rs:249-262 | the coins left again contain none that descends from another |
| Ledger.NewIdsAreFresh | daemon/src/utxo_manager.rs:77-80 | a transaction over unspent coins creates outpoints the wallet cannot hold already |
| Ledger.ApplyKeepsUnspent | daemon/src/utxo_manager.rs:56-103 | applying a transaction keeps the coins free of descendants and its outputs disjoint from them |
| Ledger.ApplyConserves | daemon/src/utxo_manager.rs:56-103 | a transaction lowers the wallet's worth by exactly its fee and what it pays to others |
| Ledger.RunConserves | daemon/src/service/common.rs:50-174 | a batch lowers the wallet's worth by exactly its fees and what it pays to others |
| Ledger.ReplaySpendsOnce | daemon/src/service/common.rs:50-174 | a list of transactions that replays spends no coin twice |
| Generate.GenerateUnsignedTransaction | daemon/src/transaction_generator.rs:831-940 | the loops build the specified transaction; its only failure is a path that cannot be built |
| Generate.GeneratedShape | daemon/src/transaction_generator.rs:831-940 | one input and one entry for each coin in order, one output for each payment, the payload, and inputs worth the coins |
| Generate.GeneratedPathsCoverInputs | daemon/src/transaction_generator.rs:845-890 | the deduplicated paths are exactly the paths of the inputs' addresses, each once |
| Mass.UniformComputeMass | daemon/src/transaction_generator.rs:1153-1174 | with the compute-budget compensation, mass is affine in the number of inputs for either transaction version |
| FeeTheorems.FeeCoversMass | daemon/src/transaction_generator.rs:1132-1146 | at a rate of at least 1 a fee covers its mass exactly when the cap lets it |
| FeeTheorems.FeeIsRoundedUp | daemon/src/transaction_generator.rs:1132-1146 | a fee is mass times rate, rounded up, unless that exceeds the cap, which it then is |
| FeeTheorems.NormalizedMaxScales | daemon/src/transaction_generator.rs:1183-1200 | the relay-fee mass does not grow faster than both masses do |
| FeeTheorems.BuiltMasses | daemon/src/transaction_generator.rs:1183-1244 | no built transaction with real payees outweighs its mock, and the mock has exactly that worst case |
| FeeTheorems.EstimateCovers | daemon/src/transaction_generator.rs:1202-1244 | n times the estimate for k coins covers the real transaction with n * k inputs, for any payees and up to n times the mock's outputs |
| FeeSufficiency.OriginalPassesCheck | daemon/src/transaction_generator.rs:784-829 | charging the one-input mock's fee for every coin makes the original pass the fee check, unless the cap is below the mock's mass |
| FeeSufficiency.SplitPassesCheck | daemon/src/transaction_generator.rs:768-782 | every split pays at least its own relay-fee mass, unless capped |
| FeeSufficiency.MergePassesCheck | daemon/src/transaction_generator.rs:523-604 | every merge that adds no coin pays at least its relay-fee mass, unless capped |
| FeeSufficiency.MergeWithExtrasPassesCheck | daemon/src/transaction_generator.rs:573-604 | so does a merge that adds coins, when the local guess at an input's mass is not below what an input adds |
| FeeSufficiency.NeverFeeTooLow | daemon/src/transaction_generator.rs:351-457 | a whole run that adds no coin never fails for a fee that is too low |
| FewSpare.NeverTooLowWhenFewSpare | daemon/src/transaction_generator.rs:351-457 | nor does a run that may add coins, when few are spare and the local guess at an input's mass is not below what an input adds |
| FeeSufficiency.CapIsPerCoin | daemon/src/transaction_generator.rs:1048-1066 | the original pays the one-coin estimate once for each coin, so it stays within the cap exactly when that many estimates do; with two coins it does not whenever the cap binds |
| FeeSufficiency.CapHoldsIffStopsInTime | daemon/src/transaction_generator.rs:1037-1112 | before selection: the original stays within the cap exactly when the loop stops, or the coins run out, at a count of estimates the cap has room for; for a send-all exactly when all eligible coins have room |
| FeeCapExample.PaysMoreThanItsCap | daemon/src/transaction_generator.rs:1048-1066 | a request whose estimate is 0.30417 KAS and which pays 1.21668 KAS under a cap of 0.5 KAS |
| Selection.SelectUtxos | daemon/src/transaction_generator.rs:1006-1130 | the loop and its closure compute the specified selection, with the same failures; `SelectionTheorems.SelectsIff` says in amounts which one that is |
| SelectionTheorems.SelectsIff | daemon/src/transaction_generator.rs:1037-1129 | selection succeeds exactly when the first few candidates that end the loop pay: end it by being worth exactly the amount and a fee each, or, two or more, 10 KAS more than that, or by being all there are, before any sum overflows; it is then those few, and what they are worth is what the recipient gets, the change and the fees |
| SelectionTheorems.NoneTakenInVain | daemon/src/transaction_generator.rs:1075-1081 | no coin is taken needlessly: every shorter choice of one candidate or more missed the amount and its fees exactly, and of two or more was less than 10 KAS above them |
| SelectionTheorems.CandidateIff | daemon/src/transaction_generator.rs:1037-1047 | the candidates are the chosen coins, or the index, at a named sender if any is named, not unconfirmed, and, if mined, matured by the node's score |
| SelectionTheorems.SelectionIsSound | daemon/src/transaction_generator.rs:1037-1129 | a duplicate-free subsequence of eligible coins; their sum is what the recipient gets, the change and one fee each; change is absent, or at least the minimum with two inputs, or everything eligible was taken; a send-all takes everything |
| SelectionTheorems.CoverIsKept | daemon/src/transaction_generator.rs:1066-1081 | over ascending amounts, once the coins taken pay for themselves every later step keeps at least that net worth, dust or not |
| SelectionTheorems.SucceedsIffAllCover | daemon/src/transaction_generator.rs:1037-1112 | over the ascending index a request succeeds exactly when all eligible coins, each less its fee, reach the amount |
| SelectionTheorems.PayableIffBestCovers | daemon/src/transaction_generator.rs:1037-1112 | some choice of coins pays the amount exactly when the coins worth at least their fee do |
| SelectionTheorems.CompleteWithoutDust | daemon/src/transaction_generator.rs:1037-1112 | without dust, in any order of the coins, selection succeeds exactly when some choice of eligible coins pays |
| SelectionTheorems.MissesMoneyIff | daemon/src/transaction_generator.rs:1037-1112 | with dust, a payable amount is refused exactly when all eligible coins net fall short and the coins worth spending do not |
| DustExample.DustHidesMoney | daemon/src/transaction_generator.rs:1037-1112 | a wallet of one dust coin and one large coin where a payable amount is refused |
| Compounder.CreateSplitTransaction | daemon/src/transaction_generator.rs:740-782 | the loop over a range of inputs builds the specified split |
| Compounder.MoreUtxosForMerge | daemon/src/transaction_generator.rs:624-677 | the loop takes the specified additional coins or reports the same shortage |
| Compounder.MergeTransaction | daemon/src/transaction_generator.rs:460-621 | the merge is the specified one; `StepSuccess.MergesIff` says when there is one |
| Compounder.SplitAll | daemon/src/transaction_generator.rs:391-411 | the split loop yields every split, each checked, and indexes no input out of bounds |
| Compounder.MaybeAutoCompound | daemon/src/transaction_generator.rs:351-457 | the recursion yields the specified batch for every amount of fuel |
| CompoundingFacts.RangesPartition | daemon/src/transaction_generator.rs:391-404 | the ceil(n/k) ranges of k cover every input exactly once, none starts at or past the end |
| CompoundingFacts.SplitShape | daemon/src/transaction_generator.rs:740-782 | a split moves its coins to the change address in one output and carries no payload |
| CompoundingFacts.ExtrasAreSpare | daemon/src/transaction_generator.rs:645-666 | added coins are eligible coins of the index that the selection did not take, in index order |
| CompoundingFacts.ExtrasCover | daemon/src/transaction_generator.rs:649-666 | added coins cover what was missing and one input fee each |
| CompoundingFacts.MergeFeeIsKept | daemon/src/transaction_generator.rs:523-604 | a merge leaves exactly its fee to the miner when it adds no coin; when it adds some it makes no change and leaves exactly what splits and added coins are worth beyond the amount; send-alls and preselected requests add none |
| CompoundingFacts.SurplusIsBurned | daemon/src/transaction_generator.rs:575-609 | of that, what exceeds the fee and one input fee for each added coin is less than what the last added coin brought |
| StepSuccess.EstimatesIff | daemon/src/transaction_generator.rs:1132-1151 | an estimate exists exactly when the coins' paths do, and charges for the mass of that many inputs, of one output or, when the coins are worth more than the recipient gets, two, and of the payload |
| StepSuccess.PerCoinFeeIs | daemon/src/transaction_generator.rs:1051-1065 | the fee for each coin is the estimate for the first one alone, with change unless everything is sent or that coin does not exceed the amount |
| StepSuccess.SplitCountsIff | daemon/src/transaction_generator.rs:680-738 | the inputs can be split exactly when one fits a split of 100000 grams; a split then gets as many as fit, and there are as many splits as that takes |
| StepSuccess.SplitsOffIff | daemon/src/transaction_generator.rs:740-782 | a split succeeds exactly when its inputs' paths exist and they are worth its fee; it leaves exactly the rest to the change address, as a coin of no block yet |
| StepSuccess.MoreUtxosIff | daemon/src/transaction_generator.rs:645-677 | additional coins are found exactly when some first few of the spare ones, none below its fee, bring what is missing and a fee each; they are then the least such few |
| StepSuccess.MergesIff | daemon/src/transaction_generator.rs:475-621 | a merge succeeds exactly when the original has one output or two, the change path exists, and what the splits left pays the merge's fee and, unless it is a send-all, the amount, alone or, without chosen coins, with spare ones |
| StepSuccess.StepsIff | daemon/src/transaction_generator.rs:366-433 | a level succeeds exactly when the transaction pays its floor and, from 100000 grams on, one input fits a split, every slice is worth its split, and what all splits leave pays for the merge; it is a heavy one exactly from there on |
| BatchTheorems.SplitWithinLimit | daemon/src/transaction_generator.rs:697-736 | no split exceeds the maximum standard transaction mass |
| BatchTheorems.LevelConserves | daemon/src/transaction_generator.rs:391-433 | one level's inputs are worth what its splits leave for the merge and their fees; every split is good and pays at least one sompi |
| BatchTheorems.BatchIsGood | daemon/src/transaction_generator.rs:351-457 | a batch's last transaction keeps the payload, pays the recipient first and exactly the amount asked, is light enough and pays its floor; inputs and added coins are worth its outputs and all fees |
| SplitRun.SplitsRun | daemon/src/transaction_generator.rs:391-411 | one level's splits run over the wallet's coins, use up its inputs and leave exactly the coins the merge spends |
| CompoundingTheorems.BatchRuns | daemon/src/transaction_generator.rs:351-457 | if no coin is added twice the batch runs in order; every input and intermediate output is spent exactly once, and the wallet ends with only the last transaction's outputs added |
| ExtrasTheorems.ExtrasFromIndex | daemon/src/transaction_generator.rs:645-666 | the coins added at any level are coins of the index that were not selected |
| ExtrasTheorems.RunsIffExtrasDistinct | daemon/src/transaction_generator.rs:436-449 | a batch runs over the wallet's coins exactly when no coin is added at two levels |
| ExtrasTheorems.RunsIffOneLevelAdds | daemon/src/transaction_generator.rs:436-449 | while the node's score stands still that is exactly when at most one level adds coins |
| DoubleSpendExample.SpendsACoinTwice | daemon/src/transaction_generator.rs:436-449 | a request that is selected and compounded to the end, whose batch spends a coin twice at every score |
| FewSpare.OneLevelIsEnough | daemon/src/transaction_generator.rs:436-449 | when the splits and all spare coins make a light merge, compounding ends after one level and adds no coin twice |
| FewSpare.RunsWhenFewSpare | daemon/src/transaction_generator.rs:351-457 | the batch then runs over the wallet's coins |
| PaidAhead.AddsNothingWhenPaid | daemon/src/transaction_generator.rs:523-569 | no level adds a coin, however many are spare, when the inputs are worth what is owed and a bound on the fees of all levels; compounding then ends |
| PaidAhead.ChangePaysAhead | daemon/src/transaction_generator.rs:1114-1129 | that is so when the selection's change, with the fees the original sets aside, reaches the bound |
| PaidAhead.FeesAtMostTwice | daemon/src/transaction_generator.rs:391-433 | the bound is at most the dearest fee twice for each input |
| Completion.SplitCostScales | daemon/src/transaction_generator.rs:768-782 | splitting n inputs off costs at most n times what splitting off one does, capped or not |
| Completion.CompletesWhenProvided | daemon/src/transaction_generator.rs:351-457 | compounding goes through, within the number of levels its inputs call for, whatever scores the node reports: when the inputs are worth what is owed and the fees of all levels, each is worth a split of its own for each level, the cap leaves room, and paths exist |
| Completion.PaysWhenProvided | daemon/src/transaction_generator.rs:351-457 | its last transaction then pays what was asked, and the change is what the inputs are worth beyond it and all fees |
| Termination.LevelBurnsValue | daemon/src/transaction_generator.rs:366-433 | a level that adds no coin leaves strictly less value to the next; inputs become splits and added coins |
| Termination.EndsWithoutExtras | daemon/src/transaction_generator.rs:435-450 | without added coins the recursion ends within as many levels as there is value |
| Termination.SendAllEnds | daemon/src/transaction_generator.rs:435-450 | a send-all and a request over preselected coins always end |
| Termination.EndsWhenInputsFall | daemon/src/transaction_generator.rs:435-450 | the recursion also ends, coins added or not, when each level has fewer inputs than the one above |
| Termination.EndsIffExtrasStop | daemon/src/transaction_generator.rs:435-450 | the recursion ends exactly when from some level on no level adds coins |
| FewSpare.EndsWhenFewSpare | daemon/src/transaction_generator.rs:435-450 | it ends when the fewest inputs that are too heavy outnumber the splits they make by more than there are spare coins: parameters, request and wallet decide |
| Termination.HaltingFixesResult | daemon/src/transaction_generator.rs:435-450 | a recursion that ends has one result whatever the fuel; one that does not yields none |
| EndlessCompounding.RequestNeverCompletes | daemon/src/transaction_generator.rs:435-450 | a request the selector accepts and the compounding never finishes |
| EndlessCompounding.OneSpareCoinTooMany | daemon/src/transaction_generator.rs:435-450 | that request misses the condition by exactly one spare coin |
| MergeExample.PaysWithChange | daemon/src/transaction_generator.rs:475-604 | a payment of 1.196 KAS from four coins, with change and too heavy: two splits, and a merge that pays it and 3.79977 KAS of change |
| Sign.SignWithMultiple | daemon/src/service/sign.rs:166-211 | the key map and the signing loop compute the specified transaction; `Sign.SignaturesAre` says byte by byte what that is |
| Sign.SignTransaction | daemon/src/service/sign.rs:80-130 | a key for every path and every master key, then signatures, then verification of what is fully signed |
| Sign.SignTransactions | daemon/src/service/sign.rs:51-78 | every transaction of the batch is signed, or the first failure is reported |
| Sign.SigningFacts | daemon/src/service/sign.rs:179-210 | nothing but signature scripts changes; each input whose script has a key carries that key's signature: 65, which is how many bytes follow it, the 64 bytes, and 1; it is fully signed exactly when every input's script has one |
| Sign.SignaturesAre | daemon/src/service/sign.rs:166-211 | where signature hashes leave scripts out, each input carries the signature, over the transaction as it came, of a key whose public key its coin's script names, 66 bytes for a signature of 64, and is unchanged if there is none; fully signed means that every input has one |
| Sign.SigningKeepsTheRest | daemon/src/service/sign.rs:179-210 | a signed transaction spends and creates the same coins under the same id |
| Sign.SignsFully | daemon/src/service/sign.rs:80-105 | a transaction whose paths cover its scripts is signed in full, or fails only in derivation or verification |
| SigningTheorems.BatchIsPrepared | daemon/src/transaction_generator.rs:351-457 | every transaction of a batch spends the wallet's own scripts at paths it carries, and pays the scripts of the payees it names |
| SigningTheorems.PreparedSignsFully | daemon/src/service/sign.rs:80-105 | a single-key wallet signs such a transaction in full |
| SigningTheorems.BatchSignsFully | daemon/src/service/sign.rs:51-78 | and so the whole batch |
| SigningTheorems.SignaturesFit | daemon/src/transaction_generator.rs:99-110 | the 66 bytes of a signature script are what the estimate sets aside: a transaction signed in full is no larger than its transient mass was worked out for, and exactly that large for one signature an input |
| SigningTheorems.SignedBatchRuns | daemon/src/service/sign.rs:61-75 | the signed batch runs exactly as the unsigned one, with the same fees and payments |
| SigningTheorems.ReplayIsOwn | daemon/src/utxo_manager.rs:64-101 | whatever part of a batch went through, every coin is locked by the script of the address it is booked under |
| Submit.SubmitTransactions | daemon/src/service/common.rs:40-175 | it stops at the first transaction that is not fully signed, is for another lane, is refused or spends a coin not held, and succeeds otherwise; coins and mempool list follow exactly the accepted prefix, and the index stays valid |
| Submit.StoppedIs | daemon/src/service/common.rs:50-116 | everything accepted was fully signed, of the daemon's subnetwork unless that is the native one, and taken by the node; and which of the four errors stops it says which of these was missing first |
| Submit.GoodRunNeverTraps | daemon/src/service/common.rs:50-116 | a batch that runs over the wallet's coins never meets a missing input |
| Submit.PrefixConserves | daemon/src/service/common.rs:50-174 | at every accepted prefix the wallet is poorer by exactly that prefix's fees and payments to others |
| GetBalance.GetBalance | daemon/src/service/get_balance.rs:11-69 | refused while not in sync; over a valid index available and pending add up to its worth; each address's line holds what its own coins are worth |
| GetBalance.AvailableAndPending | daemon/src/service/get_balance.rs:27-38 | every coin counts once, as available or as pending |
| GetBalance.CountOne | daemon/src/service/get_balance.rs:27-38 | counting a coin keeps every bucket equal to the worth of its address's coins and the buckets' totals equal to all of them |
| GetBalance.BucketsDerive | daemon/src/service/get_balance.rs:42-46 | over a valid index no bucket's address fails to derive |
| GetBalance.SendAllSpendsTheBalance | daemon/src/transaction_generator.rs:1041-1074 | an unfiltered send-all selects exactly the coins the balance counts as available |
| Hex.RoundTrip | common/src/proto_convert.rs:194-215 | hexadecimal text decodes to the bytes it encodes |
| ProtoConvert.DedupPaths | common/src/proto_convert.rs:543-550 | keeping each path the first time its text is seen keeps the first of each path |
| Sequences.DedupKeepsOrder | common/src/proto_convert.rs:543-550 | what deduplication keeps stays in the order of first occurrence |
| ProtoConvert.FromProto | common/src/proto_convert.rs:518-563 | the conversion is the specified decoding, with the same failures |
| ProtoConvert.TxRoundTrip | common/src/proto_convert.rs:217-390 | a transaction whose mass field fits its version and which has no covenants survives encoding and decoding |
| ProtoConvert.RoundTrip | common/src/proto_convert.rs:465-563 | decoding the encoding of a well-formed wallet transaction gives it back |
| ProtoConvert.DecodedIsWellFormed | common/src/proto_convert.rs:422-563 | whatever is accepted is well formed: one entry for each input, none missing, each path once |
| ProtoConvert.SurvivesIffWellFormed | common/src/proto_convert.rs:465-563 | a transaction survives the wire exactly when it is well formed |
| ProtoConvert.DecodeEncodeDecode | common/src/proto_convert.rs:465-563 | encoding and decoding what was decoded changes nothing |
| WireMeaning.DecodesIff | common/src/proto_convert.rs:194-563 | a message decodes to a transaction exactly when it says that transaction, field by field: scripts in hexadecimal of either case, ids of 32 and subnetworks of 20 bytes, the version's own mass field within its width and the other zero, one entry for each input, keychain 1 internal, cosigners within 16 bits |
| WireMeaning.EncodingSays | common/src/proto_convert.rs:194-512 | the message made of a well-formed transaction says that transaction, and carries its id |
| EndToEnd.OriginalIsReady | daemon/src/transaction_generator.rs:277-328 | the original spends coins the wallet holds, pays what was asked and meets the conditions of every later theorem |
| EndToEnd.RequestMakesGoodBatch | daemon/src/transaction_generator.rs:197-348 | from a healthy wallet, select, build and compound yield a batch that runs, conserves value, pays as asked and can be signed, unless two levels added one coin |
| EndToEnd.SignedBatchIsSubmittable | daemon/src/service/send.rs:31-48 | signed with the wallet's key, that batch can be stopped only by a refusal of the node |
| EndToEnd.HealthyAfter | daemon/src/service/send.rs:44-48 | wherever submission stops the wallet is healthy again and poorer by exactly fees and payments |
| Send.Senders | daemon/src/transaction_generator.rs:229-244 | every sender must be registered, and stands for the wallet address registered under its text |
| Send.Preselected | daemon/src/transaction_generator.rs:245-263 | the chosen coins of the index, each once, or a failure for one the wallet does not hold |
| Send.BuildBatch | daemon/src/transaction_generator.rs:277-345 | exactly the batch, or the error, of selecting, building and compounding |
| Send.CreateUnsignedTransactions | daemon/src/transaction_generator.rs:197-348 | exactly what comes of a request: senders and coins both given, an unregistered sender, a coin not held, a change address that cannot be made, each with its error and its effect on the addresses; else the batch or the error of building it for the request as looked up |
| Send.CreateFromDescription | daemon/src/service/create_unsigned_transaction.rs:39-50 | refused, with nothing changed, while the wallet is not in sync; else what create_unsigned_transactions yields |
| Send.CreatedIsFrom | daemon/src/transaction_generator.rs:229-263 | a batch was made for a request with exactly the senders and the coins it names, and never both |
| Send.CreatedResolves | daemon/src/transaction_generator.rs:197-348 | a request looked up asks what its description says, draws on the index and sends change to a registered address of the wallet |
| Send.Send | daemon/src/service/send.rs:10-59 | exactly what happens: a refusal while not in sync; the first failure to create or to sign, and then nothing changes but registered addresses; or a submission that goes on to the first obstacle; the index stays valid |
| Send.ServedIsSafe | daemon/src/service/send.rs:10-59 | in a ready wallet a signed batch without a coin added twice succeeds exactly when the node refuses none of it, and stops at the first refusal otherwise; wherever it stops the wallet is ready again and poorer by exactly the accepted transactions' fees and payments to others |
| Send.NothingAdded | daemon/src/transaction_generator.rs:552-567 | for a send-all and for chosen coins no coin is ever added, so nothing is supposed about added coins |
| Send.AddsOnceWhenFew | daemon/src/transaction_generator.rs:624-677 | nor need anything be supposed for a fixed amount when the splits and all spare coins make a light merge |
| Send.AddsNothingWhenPaidAhead | daemon/src/transaction_generator.rs:523-569 | nor when the coins selected pay ahead for all of compounding: then no coin is added |
| Send.RequestCompletes | daemon/src/transaction_generator.rs:277-345 | a request whose selection pays ahead, of coins worth splitting off, makes a batch whatever scores the node reports: no coin is added, the recipient gets the amount asked, and the rest comes back as change |
| WalletRuns.GatheredAreOwn | daemon/src/utxo_manager.rs:146-240 | coins gathered from a response whose scripts are those of the addresses it names are locked by the wallet's own scripts |
| WalletRuns.RefreshUtxos | daemon/src/sync_manager.rs:96-176 | a refresh fails without effect when an answer does not come, and is otherwise the specified one |
| WalletRuns.RefreshMakesReady | daemon/src/sync_manager.rs:96-176 | a response that names no coin twice, none that descends from another, and honest scripts makes a wallet ready, whatever its coins were |
| WalletRuns.RunKeepsReady | daemon/src/service/send.rs:10-59 | over every sequence of sends, refreshes, new addresses and answers a ready wallet stays ready, and only refusals stop its batches |

## Left out

- Compounding.Compound: the recursion takes a fuel argument; `Termination.HaltingFixesResult` shows that it does not matter where the recursion ends, and that a recursion which does not end has no result for any fuel.
- Selection.Select: sums of coin amounts are unbounded integers, because the coins of one wallet cannot exceed the money supply, which fits u64; sums that include an amount or a fee chosen by the caller are checked against u64.
- Compounding.Merge: an unchecked subtraction or addition of u64 that would overflow is modelled as the error `Overflow`, which is what a checked build does; an unchecked build would wrap.
- Mass.FeeAt: fee rates are exact reals; rounding of f64 is not modelled.
- CompoundingTheorems.BatchRuns: supposes that no coin is added at two levels; `ExtrasTheorems.RunsIffExtrasDistinct` shows that this is exactly the condition, and `FewSpare.OneLevelIsEnough` when it holds for a fixed amount.
- FewSpare.EndsWhenFewSpare: is sufficient, not necessary: which of the spare coins a merge takes depends on their amounts and on the scores the node reports while the request is served.
- FewSpare.OneLevelIsEnough: is sufficient, not necessary, for the same reason.
- Completion.CompletesWhenProvided: is sufficient, not necessary; `StepSuccess.StepsIff` says exactly when each level succeeds.
- Sign.SignaturesAre: supposes that a signature hash leaves signature scripts out, as the network's does; `Sign.SigningFacts` supposes nothing.
- FeeSufficiency.NeverFeeTooLow: is about runs that add no coin; `FewSpare.NeverTooLowWhenFewSpare` treats runs that do, under a hypothesis on the local mass guess that the code does not check.
- SyncManager.SyncManager.CollectRecentAddresses: supposes that the set of funded addresses does not change during one scan.
- Discovery.Step: at most 2^31 requests are in flight at once.
- Discovery.NoCounterWraps: supposes that the key file holds at least one public key, as the creation tool writes it.
- Discovery.StepKeepsInvariant: an answer that names an address twice, or one not asked about, is not a step; it would trap, and what the loop over the answer had already registered would stay.
- SigningTheorems.BatchSignsFully: is about a wallet with one key, since the signer looks up pay-to-pubkey scripts only; collecting signatures of several cosigners is not modelled.
- Send.Send: is about one request while no other changes the index, as the lock on the UTXO manager makes it.
- UtxoManager.UtxoManager.UpdateUtxoSet: that its response names no coin twice, and no coin that descends from another, are hypotheses of validity, not results, because the code does not see to them; that mempool transactions are well formed is what `WalletRuns.RunKeepsReady` keeps.
- WalletRuns.RunKeepsReady: supposes of each signed batch that it adds no coin twice (`Send.NothingAdded`, `Send.AddsOnceWhenFew` and `Send.AddsNothingWhenPaidAhead` say when that is certain) and of each complete response that it is good.
- The balances of `GetBalance` are values in a map, not objects that the map refers to.
- Storage mass (KIP-9), except for the minimum change the selector aims at.
- The fee policy of a request and the node's fee estimate, subnetwork-id parsing, the choice of transaction version, the compute budget for a signature: parameters of the model.
- Parsing and printing addresses, key derivation, hashing, script building beyond the three standard scripts, encryption: upstream crates, parameters of the model.
- Reading and writing the key file, gRPC, the command line, logging, the mapping of errors to status codes.
- Scheduling inside a critical section: each section under a lock is one atomic step.
