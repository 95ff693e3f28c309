# Snapp ledger engine and naive solver, modelled in Dafny

This project models three parts of the dex-services system.

- **The snapp ledger transition engine** (`event_listener/dfusion_db/snapp_event_receiver.py`).
  It rebuilds the rollup's account balances from on-chain events. Each state
  transition reads the account record at `state_index - 1` and copies its flat
  balances list. It then applies one batch to the copy: the slot's deposits,
  the slot's withdraw requests, or an auction settlement. Finally it appends a
  new record carrying the transition's own `state_index` and `state_hash`.
  Balances are laid out account-major: the cell of `(account, token)` is
  `num_tokens * account + token`. Two initialisation receivers check a raw
  event's key set and field types. The snapp one then writes the constants and
  an all-zero genesis record.
- **The driver's naive price finder** (`driver/src/price_finding/naive_solver.rs`).
  It finds the first pair of orders that can trade against each other. It
  settles that pair at the limit price of the side that is filled completely.
  Under a fee it rescales prices so the fee token costs `BASE_PRICE`, and it
  recomputes volumes so the fee is charged. The model judges whether a pair can
  trade on the orders with the fee buffer applied, as the volumes are computed.
  The code judges the orders as placed (see Findings).
- **The driver's account state** (`driver/src/models/account_state.rs`). This
  is a map from `(account, token)` to a balance, where a missing key reads as
  0. The test builders create it from a flat account-major vector, or credit
  each order's seller with what the order sells.

Files:

- `wrappers.dfy`: `Option`, `Result` and `Outcome`.
- `ledger.dfy` (module `Ledger`): the records, the index, and the deposit,
  withdraw and settlement rules as pure folds, with their lemmas.
- `ledger_store.dfy` (module `LedgerStore`): the store as a class whose fields
  are the collections: an append-only log of account records, and maps from
  slot to deposits and withdraws and from auction to orders.
- `snapp_event_receiver.dfy` (module `SnappEventReceiver`): the receivers as
  classes. They run the folds in place on an `array` copied from the
  predecessor, and each method's contract ties the result to the fold.
- `models.dfy`, `account_state.dfy`, `naive_solver.dfy`: the driver's order
  and solution records, the `AccountState` class, and the solver. The solver's
  loops (`find_first_match`, the price normalisation, the fee charging) are
  methods proved equal to functions, and the guarantees are lemmas about those
  functions.

Behaviour of the Python code that is easy to assume otherwise, modelled as written:

- Writing an account record does not check whether the index already exists.
  Records form a log, and a lookup returns the earliest record with that
  index.
- There is no index range check. Out-of-range ids are excluded by a
  precondition (see below).
- `stateHash` is checked only for being a string of length 64, not for being
  hex.
- An unknown transition type raises in `__get_data_to_apply`, after the
  predecessor and the constants have been read and before anything is
  written. It is not a silent skip.
- The auction initialisation requires the exact key set.
- Python's `isinstance(x, int)` also accepts `bool`. The model's `IsInt` does
  too, and `True` is worth 1.
- `range(n * m)` with a negative product yields an empty genesis list.

## Model

| member | source | states |
|---|---|---|
| `Ledger.Index` | event_listener/dfusion_db/snapp_event_receiver.py:41-42 | The account-major cell of (account, token); with a non-negative token count it never lies before the token id. |
| `Ledger.IndexInjective` | event_listener/dfusion_db/snapp_event_receiver.py:41-42 | Two in-range (account, token) pairs share a cell exactly when they are equal. |
| `Ledger.DepositCell` | event_listener/dfusion_db/snapp_event_receiver.py:40-52 | After a deposit batch, every cell equals its old value plus the total deposited into that cell. |
| `Ledger.SingleDeposit` | event_listener/dfusion_db/snapp_event_receiver.py:42-52 | One deposit adds exactly its amount to its own cell, and every other cell is unchanged. |
| `Ledger.DepositsCommute` | event_listener/dfusion_db/snapp_event_receiver.py:40-52 | The order of the deposits within a batch does not change the result. |
| `Ledger.WithdrawCell` | event_listener/dfusion_db/snapp_event_receiver.py:53-63 | After a withdraw batch, every cell equals its old value minus the amounts of the accepted requests on it. |
| `Ledger.WithdrawRecords` | event_listener/dfusion_db/snapp_event_receiver.py:55-64 | Exactly the accepted withdraws are replaced by a copy with `valid = true`; all other records stay as they were. |
| `Ledger.WithdrawsBounded` | event_listener/dfusion_db/snapp_event_receiver.py:55-63 | A withdraw batch never raises a cell, and never drives a non-negative cell below 0. |
| `Ledger.WithdrawAcceptance` | event_listener/dfusion_db/snapp_event_receiver.py:40-63 | Request i is accepted exactly when the balance left by requests 0..i-1 covers its amount, so requests run in stored order. |
| `Ledger.SettlementCell` | event_listener/dfusion_db/snapp_event_receiver.py:163-168 | After a settlement, every cell equals its old value plus what its orders bought minus what they sold. There is no solvency check. |
| `Ledger.SettlementTotal` | event_listener/dfusion_db/snapp_event_receiver.py:163-168 | The sum over all cells moves by the sum of the buy amounts minus the sum of the sell amounts. |
| `Ledger.GenesisRecord` | event_listener/dfusion_db/snapp_event_receiver.py:100-101 | The genesis record has index 0, the given hash, and `num_tokens * num_accounts` zeros (none if the product is negative). |
| `Ledger.ScenarioDeposit` | event_listener/dfusion_db/snapp_event_receiver.py:42-52 | With 2 tokens and 2 accounts, depositing 5 of token 0 to account 1 turns the genesis balances into `[0,0,5,0]`. |
| `Ledger.ScenarioWithdraws` | event_listener/dfusion_db/snapp_event_receiver.py:55-72 | From `[10,0,0,0]`, a withdraw of 15 changes nothing and stays invalid; a withdraw of 4 gives `[6,0,0,0]` and becomes valid. |
| `Ledger.ScenarioWithdrawOrder` | event_listener/dfusion_db/snapp_event_receiver.py:40-63 | Two withdraws of 6 from a balance of 10: the first is accepted and the second, which sees the first debit, is refused. |
| `Ledger.ScenarioSettlement` | event_listener/dfusion_db/snapp_event_receiver.py:163-168 | One order of account 0 buying 3 of token 1 for 2 of token 0 turns `[10,0,0,0]` into `[8,3,0,0]`. |
| `LedgerStore.FindRecord` | event_listener/dfusion_db/database_interface.py:85-87 | A lookup by index returns a stored record with that index, and returns nothing exactly when no record has it. |
| `LedgerStore.FindRecordAppend` | event_listener/dfusion_db/database_interface.py:71-77 | Appending a record never changes what a lookup already found, so a predecessor record is never altered by a later write. |
| `LedgerStore.Database.WriteAccountState` | event_listener/dfusion_db/database_interface.py:71-77 | The record is appended to the log; nothing else changes. |
| `LedgerStore.Database.UpdateWithdraw` | event_listener/dfusion_db/database_interface.py:66-67 | Only the one stored withdraw is replaced. |
| `SnappEventReceiver.ValidateSnappInit` | event_listener/dfusion_db/snapp_event_receiver.py:91-96 | Accepted exactly when the key set is {stateHash, maxTokens, maxAccounts}, the hash is a 64-character string and both counts are ints; a wrong key set is reported first. |
| `SnappEventReceiver.ValidateAuctionInit` | event_listener/dfusion_db/snapp_event_receiver.py:110-114 | Accepted exactly when the key set is {maxOrders, numReservedAccounts, ordersPerReservedAccount} and all three are ints. |
| `SnappEventReceiver.StateTransitionReceiver.DataToApply` | event_listener/dfusion_db/snapp_event_receiver.py:79-85 | A deposit transition yields the slot's deposits and a withdraw transition the slot's withdraws; any other type fails. |
| `SnappEventReceiver.StateTransitionReceiver.SaveParsed` | event_listener/dfusion_db/snapp_event_receiver.py:33-35 | The result is the transition's outcome, and its effect is exactly that of `__update_accounts`. A failure writes no account record and no withdraw. A success appends one record at the predecessor's index plus one, holding the deposit or withdraw fold of the predecessor's balances, and a withdraw batch also stores the marked records. The constants, deposits and orders are untouched. |
| `SnappEventReceiver.StateTransitionReceiver.UpdateAccounts` | event_listener/dfusion_db/snapp_event_receiver.py:37-77 | A missing predecessor, missing constants or an unknown type fail before any write. Otherwise exactly one record is appended: its index is the predecessor's plus one, it keeps the predecessor's length, and its balances are the deposit or withdraw fold of the predecessor's. A withdraw batch also stores the marked withdraw records. |
| `SnappEventReceiver.StateTransitionReceiver.ApplyDepositBatch` | event_listener/dfusion_db/snapp_event_receiver.py:40-52 | The in-place loop leaves the array equal to the deposit fold of its old contents. |
| `SnappEventReceiver.StateTransitionReceiver.ApplyWithdraw` | event_listener/dfusion_db/snapp_event_receiver.py:55-72 | One request is debited, and its stored record marked valid, exactly when its cell stays non-negative; otherwise nothing changes. |
| `SnappEventReceiver.StateTransitionReceiver.ApplyWithdrawBatch` | event_listener/dfusion_db/snapp_event_receiver.py:40-72 | The loop leaves the array equal to the withdraw fold, and the slot's stored withdraws equal to the fold's records. |
| `SnappEventReceiver.WithdrawStoreStep` | event_listener/dfusion_db/snapp_event_receiver.py:55-64 | Processing request i updates the stored list in place at position i, and leaves later requests unprocessed. |
| `SnappEventReceiver.AuctionSettlementReceiver.SaveParsed` | event_listener/dfusion_db/snapp_event_receiver.py:152-171 | The settlement succeeds exactly when the predecessor record and the constants exist; a missing one fails with no write. A success appends one record at the settlement's index, with the settlement fold of the predecessor's balances. |
| `SnappEventReceiver.ApplySettlementBatch` | event_listener/dfusion_db/snapp_event_receiver.py:163-168 | The in-place loop leaves the array equal to the settlement fold of its old contents. |
| `SnappEventReceiver.SnappInitializationReceiver.Save` | event_listener/dfusion_db/snapp_event_receiver.py:89-98 | A malformed event fails and leaves the store unchanged. A valid one appends the constants and the genesis record. |
| `SnappEventReceiver.SnappInitializationReceiver.InitializeAccounts` | event_listener/dfusion_db/snapp_event_receiver.py:100-103 | Appends the snapp constants and the all-zero genesis record. |
| `SnappEventReceiver.AuctionInitializationReceiver.Save` | event_listener/dfusion_db/snapp_event_receiver.py:108-118 | A malformed event fails with no write. A valid one appends the auction constants and writes no account record. |
| `AccountStates.AccountState.ReadBalance` | driver/src/models/account_state.rs:9-11 | Returns the stored balance for (account, token), or 0 when the key is absent. |
| `AccountStates.AccountState.UserTokenPairs` | driver/src/models/account_state.rs:13-15 | Yields exactly the map's key set, which includes every pair with a non-zero balance. |
| `AccountStates.AccountState.IncreaseBalance` | driver/src/models/account_state.rs:58-60 | Adds the amount to exactly one entry, creating it at 0 if absent. No other balance changes, and the key set gains exactly that pair. |
| `AccountStates.AccountState.New` | driver/src/models/account_state.rs:24-44 | Fails exactly when the vector length is not a multiple of the token count (or the count is 0). Otherwise builds the map from the flat vector. |
| `AccountStates.FromFlatLayout` | driver/src/models/account_state.rs:30-42 | The map built from the flat vector holds (a, t) exactly when t is below the token count and cell `n*a + t` exists, and then holds that cell's value. This is the ledger engine's layout. |
| `AccountStates.AccountState.WithBalanceFor` | driver/src/models/account_state.rs:46-56 | The loop builds the map that credits each order's seller with its sell amount. |
| `AccountStates.SellTotalsLookup` | driver/src/models/account_state.rs:46-56 | Each (account, token) reads the sum of the sell amounts of the orders with that account and sell token. An entry exists exactly for the pairs some order sells. |
| `NaiveSolver.WithBalanceForFunds` | driver/src/price_finding/naive_solver.rs:54-56 | Under the state built by `with_balance_for`, every order passes the seller-funds check. |
| `NaiveSolver.OppositeTokensSymmetric` | driver/src/price_finding/naive_solver.rs:84-86 | `opposite_tokens` is symmetric. |
| `NaiveSolver.HavePriceOverlapSymmetric` | driver/src/price_finding/naive_solver.rs:88-93 | `have_price_overlap` is symmetric. |
| `NaiveSolver.MatchCompareAsWritten` | driver/src/price_finding/naive_solver.rs:44-82 | As written: a pair matches exactly when both sellers hold their sell amounts, the tokens are opposite, the prices of the orders as placed overlap and, under a fee, the first order trades the fee token. A match is then classified by the fill rule on the orders as placed. |
| `NaiveSolver.MatchCompare` | driver/src/price_finding/naive_solver.rs:44-82 | Corrected (see Findings): the same guards, except that price overlap is judged on the fee-buffered orders. A match is classified by the fill rule on the buffered orders. |
| `NaiveSolver.MatchCompareWithoutFee` | driver/src/price_finding/naive_solver.rs:58-82 | Without a fee the comparison is exactly the code's. |
| `NaiveSolver.BufferedMatchIsMatch` | driver/src/price_finding/naive_solver.rs:58-82 | A pair that matches after the fee buffer also matches as placed. The corrected comparison only rejects pairs and never admits new ones. |
| `NaiveSolver.ClassifyShape` | driver/src/price_finding/naive_solver.rs:75-81 | For overlapping orders, Lhs, Rhs and Both are exclusive and exhaustive, and Both means x asks strictly less than y offers while offering strictly more than y asks. |
| `NaiveSolver.FirstMatchIsFirst` | driver/src/price_finding/naive_solver.rs:143-155 | With the corrected comparison `MatchCompare` (see Findings): there is no match exactly when no pair i < j matches; otherwise the result is the lexicographically first matching pair, with its classification. |
| `NaiveSolver.FindFirstMatch` | driver/src/price_finding/naive_solver.rs:143-155 | With the corrected comparison `MatchCompare` (see Findings): the nested loop with early return computes that first match. |
| `NaiveSolver.FirstMatchValid` | driver/src/price_finding/naive_solver.rs:143-155 | With the corrected comparison `MatchCompare` (see Findings): a found match is a pair of orders of the book, in book order, that satisfies the match guards. |
| `NaiveSolver.OrderWithBufferForFee` | driver/src/price_finding/naive_solver.rs:246-264 | Under a fee of 1/d, an order buying the fee token asks ceil(buy*d/(d-1)), and one selling it offers floor(sell*(d-1)/d). Without a fee, or for an order not trading the fee token, the order is unchanged. |
| `NaiveSolver.BufferLoosensNothing` | driver/src/price_finding/naive_solver.rs:246-264 | The buffered order asks at least the order's buy amount and offers at most its sell amount. |
| `NaiveSolver.CreateExecutedOrders` | driver/src/price_finding/naive_solver.rs:157-198 | Two executed orders for the pair's accounts and ids. What one sells the other buys. Both tokens of an opposite pair are priced. |
| `NaiveSolver.NoFeeExecution` | driver/src/price_finding/naive_solver.rs:179-195 | Without a fee, each executed order sells at most its order's amount at the order's limit price or better. For distinct tokens, each is worth the same on both sides at the solution's prices. |
| `NaiveSolver.BufferTightens` | driver/src/price_finding/naive_solver.rs:246-264 | An execution within the buffered order's limit is within the order's own limit: it sells no more and keeps the limit price. |
| `NaiveSolver.BufferedExecution` | driver/src/price_finding/naive_solver.rs:157-198 | Under any fee, the executed volumes of a valid match keep both orders within their buffered limits and so within their own limits. For distinct tokens, each order is worth the same on both sides at the match's prices. |
| `NaiveSolver.NormalizePrice` | driver/src/price_finding/naive_solver.rs:267-272 | The price times BASE_PRICE over the fee price, rounded up. None exactly when that exceeds 128 bits. |
| `NaiveSolver.NormalizeSelf` | driver/src/price_finding/naive_solver.rs:206-216 | The fee token's own price normalises to exactly BASE_PRICE. |
| `NaiveSolver.ExecutedSellAmount` | driver/src/price_finding/naive_solver.rs:276-282 | Panics on a zero sell price. Otherwise the result fits 128 bits and never exceeds the exact fee-grossed value buy*pb*d/((d-1)*ps). |
| `NaiveSolver.ExecutedSellOverflow` | driver/src/price_finding/naive_solver.rs:276-282 | An overflow panic happens only at a positive sell price whose exact fee-grossed value is beyond the u128 maximum. |
| `NaiveSolver.ExecutedBuyAmountAsWritten` | driver/src/price_finding/naive_solver.rs:288-311 | As written: panics when either price is 0, and a returned buy amount round-trips through `executed_sell_amount`. |
| `NaiveSolver.ExecutedBuyAmount` | driver/src/price_finding/naive_solver.rs:288-311 | Returns Some(b) only when `executed_sell_amount(b)` gives back the input. A zero sell price yields None instead of a panic. |
| `NaiveSolver.ExecutedBuyAmountMissesInverse` | driver/src/price_finding/naive_solver.rs:284-311 | The inverse can answer None although a buy volume round-trips, even at the buy price BASE_PRICE: with d = 2, sell amount 1 and sell price 2*BASE_PRICE+1, it returns None while a buy volume of 2 gives back 1. |
| `NaiveSolver.ExecutedBuyAmountCorrection` | driver/src/price_finding/naive_solver.rs:288-311 | The corrected inverse agrees with the code wherever the sell price is positive. At a zero sell price the code panics and the corrected version returns None. |
| `NaiveSolver.NormalizeAll` | driver/src/price_finding/naive_solver.rs:211-216 | Every price is normalised and the keys are kept. The result is None exactly when some price does not fit. |
| `NaiveSolver.NormalizePrices` | driver/src/price_finding/naive_solver.rs:211-216 | The in-place loop over the price map, in any order, computes that normalisation. |
| `NaiveSolver.NormalizedFeePrice` | driver/src/price_finding/naive_solver.rs:206-216 | After normalisation the fee token is priced at exactly BASE_PRICE and no token loses its price. |
| `NaiveSolver.ChargeFeesInPlace` | driver/src/price_finding/naive_solver.rs:220-238 | The loop that rewrites each executed order computes the fee-charging fold, stopping at the first order that panics or gives up. The fold uses the corrected inverse `ExecutedBuyAmount`, so a zero sell price gives up where the code divides by zero (see Findings). |
| `NaiveSolver.ChargeFeeOutcome` | driver/src/price_finding/naive_solver.rs:220-238 | With the corrected inverse `ExecutedBuyAmount`: for an order trading the fee token, at prices that cover both its tokens, charging the fee can fail only by overflow. The code can also divide by zero (see Findings). Otherwise the result is consistent with the prices and keeps the volume on the side that is not recomputed. |
| `NaiveSolver.ChargeFeesPair` | driver/src/price_finding/naive_solver.rs:220-238 | For a pair, the fee is charged to the first order and then to the second. |
| `NaiveSolver.CreateSolutionWithFee` | driver/src/price_finding/naive_solver.rs:200-244 | A missing or zero fee-token price, or a price that does not fit, yields the trivial solution. Otherwise the solution has normalised prices and fee-charged volumes, charged with the corrected inverse `ExecutedBuyAmount` (see Findings). |
| `NaiveSolver.FeeMatchSolution` | driver/src/price_finding/naive_solver.rs:200-244 | With the corrected comparison and inverse (see Findings): for a valid match under a fee, the solution can fail only by overflow. A non-trivial one prices the fee token at BASE_PRICE, its volumes are consistent with the prices and the fee, the non-fee token is conserved, and an order not selling the fee token sells at most its sell amount. |
| `NaiveSolver.NaiveSolver.FindPrices` | driver/src/price_finding/naive_solver.rs:125-140 | The solver's result is the first match, executed and, under a fee, charged; it is the trivial solution when nothing matches. Matching uses the corrected comparison and charging the corrected inverse (see Findings). |
| `NaiveSolver.NoMatchTrivial` | driver/src/price_finding/naive_solver.rs:689-699 | With the corrected comparison `MatchCompare` (see Findings): with no matching pair, in particular with no orders, the solution is trivial. |
| `NaiveSolver.NoFeeSolution` | driver/src/price_finding/naive_solver.rs:914-941 | Without a fee the solver never panics. A non-trivial solution settles two orders of the book within their limits, conserves both tokens, and values each order equally on both sides. |
| `NaiveSolver.FeeSolution` | driver/src/price_finding/naive_solver.rs:872-941 | With the corrected comparison and inverse (see Findings): under a fee the solver fails only by overflow. A non-trivial solution prices the fee token at BASE_PRICE, settles two orders of the book consistently with prices and fee, conserves the non-fee token, and has an order not selling the fee token sell at most its sell amount. |
| `NaiveSolver.ZeroSellPricePanics` | driver/src/price_finding/naive_solver.rs:226-236 | A concrete book where the first order asks 0 of the fee token: its sell token is priced 0, and the as-written inverse divides by that price. |
| `NaiveSolver.ClassifyBeforeBufferOverfills` | driver/src/price_finding/naive_solver.rs:58-82 | As written, a pair under a fee of 1/1000 is classified Lhs on the orders as placed, and the volumes from the buffered orders then have y sell 2 of the 1 it offered. The corrected comparison rejects the pair. |
| `NaiveSolver.OverfillSurvivesFee` | driver/src/price_finding/naive_solver.rs:200-244 | Charging the fee on those volumes keeps the excess: the submitted solution still has y sell 2 of 1. |
| `NaiveSolver.OverfillChargedVolumes` | driver/src/price_finding/naive_solver.rs:218-238 | At those normalised prices, charging the fee leaves both executed orders of that book unchanged. |
| `NaiveSolver.FeeSellerOverfillsByRounding` | driver/src/price_finding/naive_solver.rs:266-272 | Under a fee of 1/10 on token 0, x offers BASE_PRICE of the fee token and y offers BASE_PRICE+1 of token 1, both asking nothing. Both comparisons fill both orders, and the solver's solution has x sell BASE_PRICE+1, one more than its offer. This breaks the check at lines 914-919. The cause is that token 1's price is rounded up when normalised. |
| `NaiveSolver.FeeSellerRoundingMatch` | driver/src/price_finding/naive_solver.rs:157-216 | On that book the first match fills both orders: x sells 9*10^17 (its offer less the fee) for y's whole offer, at prices 9*10^17 and BASE_PRICE+1. Normalised against the fee token, token 1's price rounds up to 9*10^17. |
| `NaiveSolver.FeeSellerRoundingCharged` | driver/src/price_finding/naive_solver.rs:218-238 | At the normalised prices, x's sell volume grossed up from its buy volume is BASE_PRICE+1, and y keeps its sell volume for a buy volume of 810000000000000001. |
| `NaiveSolver.ZeroSellPriceTrivial` | driver/src/price_finding/naive_solver.rs:226-236 | With the corrected inverse, the same book yields the trivial solution. |

## Left out

- Logging in the Python receivers is not modelled; it has no effect on state.
- MongoDB I/O is replaced by the `Database` class. A lookup by state index returns the earliest record with that index, which assumes `find_one` uses insertion order.
- The Deposit, Withdraw, Order, StateTransition and AuctionSettlement records are given datatypes. Their dictionary parsers (`from_dictionary`) and the models module are not part of this model.
- `DepositReceiver`, `WithdrawRequestReceiver` and `OrderReceiver` only insert a parsed record into the store. They are represented only by the store's maps.
- `write_snapp_constants`, `write_auction_constants`, `get_orders` and `get_num_orders` are called by the receivers but are not in the shown store interface. They are modelled as appends to, and reads of, the store's collections.
- A withdraw record is replaced by its position in the slot's list, not by its database id.
- SnappEventReceiver.StateTransitionReceiver.UpdateAccounts: requires every deposit or withdraw of the slot to address an in-range cell. The code has no bounds check: an out-of-range token id silently aliases another account's cell, and a cell past the end raises.
- SnappEventReceiver.AuctionSettlementReceiver.SaveParsed: requires in-range cells for every order, and at least as many buy and sell amounts as orders. The code indexes without checking either.
- `get_num_orders` is only passed to the settlement parser, so it is not modelled.
- No event router is modelled: the code dispatches by receiver class, and that dispatch is not part of the shown source.
- The fee ratio is a float in the driver, and `fee_denominator = (1.0 / ratio) as u128`. Here the denominator is an integer of at least 2; at 1 the fee formulas divide by zero.
- NaiveSolver.OrderWithBufferForFee: does not model u128 overflow of `buy_amount * fee_denominator` and `sell_amount * (fee_denominator - 1)`. Amounts are unbounded.
- NaiveSolver.FeeSolution: does not promise every limit that the solution check at driver/src/price_finding/naive_solver.rs:914-928 tests, because one of them is false. Proved: the volumes before the fee respect the limits of the buffered orders (`NaiveSolver.BufferedExecution`), and an order not selling the fee token sells at most its amount after the fee. False: that the fee-token seller sells at most its amount after the fee. `normalize_price` rounds the other token's price up, and the sell volume grossed up from it can exceed the offer. `NaiveSolver.FeeSellerOverfillsByRounding` shows this with fee 1/10, x = Order(0,0,0,1,BASE_PRICE,0) and y = Order(1,1,1,0,BASE_PRICE+1,0): x sells BASE_PRICE+1. The code as written does the same. No fix is modelled, because the code gives no rounding that is evidently intended. The limit price after a buy volume is recomputed is not proved either.
- NaiveSolver.FeeMatchSolution: the same limits are left out. The fee-token seller's limit is false on the same input (`NaiveSolver.FeeSellerOverfillsByRounding`).
- NaiveSolver.ExecutedBuyAmount: does not promise the converse stated in the function's comment, that None means no buy volume round-trips. The code's candidate rounds `s*ps/d` down, and the converse fails even at the buy price BASE_PRICE the solver uses (`NaiveSolver.ExecutedBuyAmountMissesInverse`). The model keeps the code's candidate.
- NaiveSolver.ExecutedSellAmount: does not model U256 overflow of the intermediate product. Only the final narrowing to u128 is modelled, as an Overflow panic.
- `driver/src/util.rs` is not part of this model. `ceiled_div` is taken to be division rounding up, and `as_u128_checked` a range check.
- The driver's `Order`, `ExecutedOrder` and `Solution` types are not shown. They are modelled with the fields the solver uses. Token ids (u16) and amounts (u128) are naturals.
- `find_prices`' time limit argument is unused by the solver and is dropped.
- Price-map iteration order in `create_solution_with_fee` is unspecified. The model normalises keys in an arbitrary order, which gives the same result.
- Concurrency (`updating_orderbook.rs`), HTTP and RPC clients (`kraken.rs`, `contract.rs`, `contracts/mod.rs`, `orderbook/mod.rs`), logging (`logging.rs`), build scripts, macros, end-to-end helpers and benchmarks are not modelled.

## Findings

| source | as written | input that shows it | evidently intended | confidence | as-written member | corrected member |
|---|---|---|---|---|---|---|
| driver/src/price_finding/naive_solver.rs:226-236, 306 | For an order that does not sell the fee token, `create_solution_with_fee` calls `executed_buy_amount` with that order's normalised sell-token price. The round-trip check then calls `executed_sell_amount`, which divides by this price. A price of 0 makes the U256 division panic. | Fee token 0, ratio 1/1000. Order x: account 0 sells 5 of token 1 for 0 of token 0. Order y: account 1 sells 10 of token 0 for 10 of token 1. Balances cover both. The pair is Lhs-filled, token 1 is priced 0, and charging x's fee divides by 0. | `executed_buy_amount` returns None when no buy volume round-trips, as its comment says, so the solver returns the trivial solution. | medium, not executed | `NaiveSolver.ZeroSellPricePanics` | `NaiveSolver.ExecutedBuyAmount` |
| driver/src/price_finding/naive_solver.rs:58-82, 157-198 | `match_compare` tests price overlap and picks the fill type on the orders as placed. `create_executed_orders` then computes the volumes from the fee-buffered orders, whose overlap was never checked. | Fee token 0, ratio 1/1000. Order x: account 0 sells 1 of token 1 for 1 of token 0. Order y: account 1 sells 1 of token 0 for 1 of token 1. Balances cover both. The pair is Lhs-filled, the buffered x asks 2, and y is executed selling 2 of the 1 it offered. After the fee it still sells 2, which the solution check at lines 914-919 rejects. | Overlap and fill type are judged on the buffered orders, which rejects this pair. Every executed order then stays within its limit before the fee is charged. | high, not executed | `NaiveSolver.ClassifyBeforeBufferOverfills` | `NaiveSolver.BufferedExecution` |
