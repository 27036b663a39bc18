# cryptocoin_payable: the payment reconciliation engine, in Dafny

This project models the core of the `cryptocoin_payable` gem. That core is the
`CoinPayment` record and the `PaymentProcessor` batch that reconciles
payments against a blockchain. The model covers five parts:

- **The lifecycle** (`PaymentStates`). It has six states and five events, and
  each accepted event runs one `after_transition` hook. `Step` is the
  transition table. `Run` fires a sequence of events.
- **Notifications** (`Notifications`). `notify_payable_event` calls the
  event's own hook `coin_payment_<event>` and then the generic
  `coin_payment_event`, each only when the payable responds to it. A payable is
  seen only as the set of method names it responds to. A call the payable
  receives is recorded as a `Call` value.
- **The amount engine** (`Amounts`). It covers `currency_amount_paid`,
  `currency_amount_due`, `calculate_coin_amount_due` and
  `transactions_confirmed?`. The arithmetic uses exact reals:
  - `round(0)` is rounding half away from zero, written with `Floor`;
  - `.ceil` is `-Floor(-x)`;
  - the adapter's conversions use a positive constant per coin, the worth of
    one subunit in main units (1e-8 for a satoshi). `convert_subunit_to_main`
    multiplies by it and `convert_main_to_subunit` divides by it. Multiplying
    by the subunit's worth is the same as dividing by the number of subunits in
    a coin; the product form keeps the solver's arithmetic small.
- **The ledger** (`Transactions`). A payment's transaction rows are keyed by
  transaction hash. The merge upserts each fetched transaction: it overwrites
  only `confirmations` on a row whose hash exists, and it appends a row,
  stamped with the payment's rate, for a new hash.
- **The loaded rows.** A payment record holds two lists of rows:
  - `transactions`, the rows in the store;
  - `loaded`, the copy of the `transactions` association that
    `currency_amount_paid` and `transactions_confirmed?` read.

  That copy is loaded by the first read of a pass, the pre-check. After that:
  - a row that `update_via_many_insert` finds by `find_by_transaction_hash` is
    updated through a query of its own, so the copy keeps its old
    confirmations;
  - a row created through the association joins the copy;
  - the bulk path's `reload` replaces the copy with the stored rows.

  The two lists always hold the same rows up to their confirmations
  (`Payment.Valid`, `MergedKeepsRows`), so they pay the same. The post-check of
  the many-insert path can still read older confirmations than the store
  holds.
- **The payment and the processor** (`CoinPayments`, `PaymentProcessor`).
  - `Payment` is a class whose methods change its fields in place:
    - `CoinConversion` memoises the rate lookup into the instance;
    - `UpdateCoinAmountDue` writes the amount due and the rate column;
    - `Fire` carries out the event methods.
  - The processor has these methods:
    - `UpdateViaManyInsert`, a loop over the fetched list;
    - `UpdateViaBulkInsert`;
    - `UpdateTransactionsFor`;
    - `UpdatePaymentState`;
    - `UpdatePaymentExpiredState`;
    - `Reconcile`, the body of `perform`'s loop;
    - `Perform`, the loop over the payments.
  - Each method is proved against a pure function on the `PaymentRec` value,
    with the shape `p.Rec() == F(old(p.Rec()))`. The lemmas state what the code
    promises about those functions: settlement, the merge, one pass, and
    worked examples (`Scenarios`).

Three collaborators become parameters:

- the blockchain fetch is a `Result<seq<FetchedTx>>`, either the list or an
  error;
- the `CurrencyConversion` lookup is a positive `latest` rate;
- the clock is an integer `now`, and the grace period is `grace`.

The confirmation threshold of the payment's coin type is `threshold`.
`Perform` takes one fetch result, one clock reading and one rate lookup per
payment. Each payment is a fresh instance whose `coin_conversion` is memoised
on first use. Within one pass the model reads the rate once and the clock
once, as the code does.

## Two behaviours of the code worth knowing

The model follows the code in both cases:

- **A failing fetch blocks expiry.** One might expect a payment whose fetch
  keeps failing to expire once its grace period is over. In the code, the
  `next` in `perform`'s rescue (payment_processor.rb:23-27) also skips
  `update_payment_expired_state` (payment_processor.rb:34). So such a payment
  never expires. `FetchErrorNeverExpires` states this.
- **The amount due can be negative.** `currency_amount_due` is the price minus
  the amount paid (coin_payment.rb:84-86), and neither it nor
  `calculate_coin_amount_due` (coin_payment.rb:88-90) clamps it at zero, so an
  overpayment gives a negative amount. `OverpaidDueIsNegative` shows this on
  an example.

The processor functions and methods (`Reconciled`, `Reconcile`, `Perform`)
model the code as written, with the stale loaded rows of the many-insert path.
`ReconciledReloading` is the corrected pass of the finding below.

## Findings

| source | as written | input that shows it | evidently intended | confidence | as-written member | corrected member |
|---|---|---|---|---|---|---|
| lib/cryptocoin_payable/commands/payment_processor.rb:30 | on the many-insert path, the post-check reads the association loaded at the pre-check; rows found by hash are updated by a separate query, so it sees their old confirmations | a partial payment stores h1 (half the price) at 6 confirmations; threshold 6; the fetch reports h1 at 2 and a new h2 (the other half) at 6; many-insert path. The payment is confirmed while the stored h1 has 2 confirmations | the settlement reads the stored rows, as the bulk path's `reload` makes it do, so a payment is confirmed only when every stored row meets the threshold | not executed; it needs a stored transaction to lose confirmations between fetches, as in a chain reorganisation | Scenarios.StaleConfirmationsConfirm | PaymentProcessor.ReloadingConfirmGated |

The same stale copy delays confirmation on the usual input. A paid-in-full
payment whose transaction is refetched with enough confirmations stays paid in
full on the many-insert path (`ManyInsertRefetchWaits`). It is confirmed by
the next pass, which loads the rows afresh.

## Model

| member | source | states |
|---|---|---|
| PaymentStates.Step | lib/cryptocoin_payable/coin_payment.rb:28-61 | an accepted event leaves a non-terminal state, moves strictly forward and carries its event's notice; only `confirm` from paid_in_full reaches confirmed, only `expire` from pending reaches expired |
| PaymentStates.NoticeFor | lib/cryptocoin_payable/coin_payment.rb:36-40 | the hook each event runs: `pay` and `comp` the paid notice, `partially_pay`, `confirm` and `expire` their own; `Step` attaches it to every accepted transition |
| PaymentStates.PayAndCompSources | lib/cryptocoin_payable/coin_payment.rb:42-52 | `pay` and `comp` are accepted exactly from pending and partial_payment, going to paid_in_full and comped |
| PaymentStates.SingleSourceEvents | lib/cryptocoin_payable/coin_payment.rb:46-60 | `partially_pay` and `expire` are accepted exactly from pending, `confirm` exactly from paid_in_full |
| PaymentStates.TerminalIsSink | lib/cryptocoin_payable/coin_payment.rb:28-61 | a state is terminal if and only if every event is rejected in it |
| PaymentStates.UnconfirmedIsNotTerminal | lib/cryptocoin_payable/coin_payment.rb:17 | the `unconfirmed` scope is exactly the non-terminal states |
| PaymentStates.Run | lib/cryptocoin_payable/coin_payment.rb:28-61 | a run of events never moves backwards, fires at most one notice per event, does nothing from a terminal state, and fires some notice exactly when the state changes |
| Notifications.Dispatch | lib/cryptocoin_payable/coin_payment.rb:129-134 | the specific hook is called if and only if the payable has it, the generic one if and only if the payable has that, nothing else is called, and the specific call comes first |
| Notifications.HookNamesDistinct | lib/cryptocoin_payable/coin_payment.rb:129-150 | different notices call different specific hooks, and none of them is the generic hook |
| Amounts.SubunitToMain | lib/cryptocoin_payable/coin_payment.rb:77 | `convert_subunit_to_main`, taken as an exact product by the worth of one subunit; `ConversionRoundTrip` relates it to `MainToSubunit` |
| Amounts.MainToSubunit | lib/cryptocoin_payable/coin_payment.rb:89 | `convert_main_to_subunit`, taken as an exact quotient by the worth of one subunit; `ConversionRoundTrip` relates it to `SubunitToMain` |
| Amounts.TxCents | lib/cryptocoin_payable/coin_payment.rb:77 | one row's term of the sum: its value in main units times the rate stored on the row itself |
| Amounts.ExactCentsPaid | lib/cryptocoin_payable/coin_payment.rb:76-78 | the unrounded `inject` over the rows in order, starting at 0; `CurrencyAmountPaid` rounds it, and `ExactCentsIgnoresConfirmations` shows it reads no confirmations |
| Amounts.ConversionRoundTrip | lib/cryptocoin_payable/coin_payment.rb:75-90 | converting subunits to main units and back gives the subunits again |
| Amounts.Ceil | lib/cryptocoin_payable/coin_payment.rb:89 | the least integer not below x |
| Amounts.RoundHalfUp | lib/cryptocoin_payable/coin_payment.rb:81 | the nearest integer, a tie rounded away from zero |
| Amounts.CurrencyAmountPaid | lib/cryptocoin_payable/coin_payment.rb:75-82 | an empty ledger pays 0; the result is within half a cent of the exact sum of every row's value at its own rate, whatever the number of rows |
| Amounts.CurrencyAmountDue | lib/cryptocoin_payable/coin_payment.rb:84-86 | zero or less exactly when the amount paid covers the price, negative exactly when it exceeds it |
| Amounts.CoinsFor | lib/cryptocoin_payable/coin_payment.rb:88-90 | rounding up: at least the exact subunits and less than one more; zero, positive or not positive with the fiat amount |
| Amounts.CoinsForCovers | lib/cryptocoin_payable/coin_payment.rb:88-90 | paid at the rate, the subunits are worth at least the fiat amount, and one subunit fewer would be worth less |
| Amounts.CalculateCoinAmountDue | lib/cryptocoin_payable/coin_payment.rb:88-90 | within one subunit above the exact subunits of the fiat amount due, and zero or less exactly when the price is covered (not clamped at 0) |
| Amounts.CalculateCoinAmountDueCovers | lib/cryptocoin_payable/coin_payment.rb:88-90 | paying the amount due at the rate settles what the ledger leaves unpaid, and one subunit less would not |
| Amounts.TransactionsConfirmed | lib/cryptocoin_payable/coin_payment.rb:107-111 | true if and only if every row has at least the threshold of confirmations, so an empty ledger counts as confirmed |
| Amounts.ExactCentsIgnoresConfirmations | lib/cryptocoin_payable/coin_payment.rb:75-82 | two ledgers that differ only in confirmations pay the same |
| Amounts.SameRowsSamePaid | lib/cryptocoin_payable/coin_payment.rb:75-82 | a loaded copy that differs from the stored rows only in confirmations pays the same |
| Amounts.CurrencyAmountPaidNonNegative | lib/cryptocoin_payable/coin_payment.rb:75-82 | rows of non-negative value pay a non-negative amount |
| CoinPayments.ExpiredAt | lib/cryptocoin_payable/coin_payment.rb:96-98 | defined exactly when the creation time is, and then the grace period after it |
| CoinPayments.IsExpired | lib/cryptocoin_payable/commands/payment_processor.rb:100-102 | true if and only if there is a creation time and its grace period ended before `now`; never without a creation time |
| CoinPayments.RateOf | lib/cryptocoin_payable/coin_payment.rb:92-94 | what `coin_conversion` answers: the memoised rate when there is one, else the lookup; `Payment.CoinConversion` and `UpdateCoinAmountDueIdempotent` state the memo |
| CoinPayments.WithCoinAmountDue | lib/cryptocoin_payable/coin_payment.rb:100-105 | only the amount due, the rate column and the memo change; the amount is computed on the loaded rows at the memoised rate; the column gets the explicit rate or else that memoised rate |
| CoinPayments.Fired | lib/cryptocoin_payable/coin_payment.rb:28-61 | a rejected event changes nothing; an accepted one sets the target state and appends exactly its notice's hook calls, and nothing else changes |
| CoinPayments.FireAll | lib/cryptocoin_payable/coin_payment.rb:28-61 | only state and calls change, the final state is that of the run of events, and earlier calls are kept as a prefix |
| CoinPayments.UpdateCoinAmountDueIdempotent | lib/cryptocoin_payable/coin_payment.rb:92-105 | a second recomputation changes nothing, whatever the rate lookup then says, since the rate is memoised |
| CoinPayments.Payment.Load | lib/cryptocoin_payable/commands/payment_processor.rb:14 | a payment fresh from the store has the stored fields, its loaded rows are the stored ones, and it has no memoised rate and no hook calls; from rows with unique hashes it satisfies `Valid` |
| CoinPayments.Payment.CoinConversion | lib/cryptocoin_payable/coin_payment.rb:92-94 | returns the memoised rate, or the lookup on first use, and memoises it; nothing else changes |
| CoinPayments.Payment.UpdateCoinAmountDue | lib/cryptocoin_payable/coin_payment.rb:100-105 | the new record is `WithCoinAmountDue` of the old one |
| CoinPayments.Payment.Fire | lib/cryptocoin_payable/coin_payment.rb:28-61 | reports whether the event was accepted; the new record is `Fired` of the old one |
| Transactions.Find | lib/cryptocoin_payable/commands/payment_processor.rb:80 | the first row with the hash, and none exactly when no row has it |
| Transactions.Upsert | lib/cryptocoin_payable/commands/payment_processor.rb:79-87 | an existing row of the hash gets only the new confirmations and others are untouched; a new hash is appended as given; no duplicate hash is introduced |
| Transactions.UpsertAll | lib/cryptocoin_payable/commands/payment_processor.rb:78-89 | no row is removed, the hashes become those of the ledger plus the fetched ones, and the unique-hash invariant is kept |
| Transactions.UpsertAllKeepsRows | lib/cryptocoin_payable/commands/payment_processor.rb:79-82 | existing rows change at most in confirmations, and a row whose hash was not fetched is left exactly as it was |
| Transactions.UpsertAllNewRows | lib/cryptocoin_payable/commands/payment_processor.rb:83-85 | every added row has a hash new to the ledger and is one of the fetched rows up to its confirmations |
| Transactions.SameRowsUpsert | lib/cryptocoin_payable/commands/payment_processor.rb:79-87 | upserting one row keeps a copy aligned with the store up to confirmations, when the copy gains the row exactly if its hash is new |
| Transactions.UpsertAllInserted | lib/cryptocoin_payable/commands/payment_processor.rb:78-89 | a copy loaded before the many-insert loop and extended only by the created rows still holds the stored rows, up to confirmations |
| Transactions.InsertedNone | lib/cryptocoin_payable/commands/payment_processor.rb:80-85 | rows whose hashes the ledger already holds create nothing |
| Transactions.InsertedNoNewHash | lib/cryptocoin_payable/commands/payment_processor.rb:80-85 | a fetched list with no new hash creates no row, so the loaded copy gains nothing |
| Transactions.Confs | lib/cryptocoin_payable/commands/payment_processor.rb:79-82 | the confirmations the merge gives each fetched hash, defined on exactly the fetched hashes |
| Transactions.ConfsLastWins | lib/cryptocoin_payable/commands/payment_processor.rb:79-82 | the last fetched row of a hash decides its confirmations |
| Transactions.UpsertAllConfs | lib/cryptocoin_payable/commands/payment_processor.rb:78-89 | after the merge every fetched hash carries the confirmations its last fetched row gave |
| Transactions.UpsertAllRefresh | lib/cryptocoin_payable/commands/payment_processor.rb:79-82 | on a ledger that already holds every fetched hash, the merge only refreshes confirmations |
| Transactions.UpsertAllIdempotent | lib/cryptocoin_payable/commands/payment_processor.rb:78-89 | upserting rows that give every hash the same confirmations again adds no row and changes nothing |
| Transactions.StampedConfs | lib/cryptocoin_payable/commands/payment_processor.rb:84 | the rate a fetched list is stamped with does not change the confirmations it gives |
| Transactions.MergeIdempotent | lib/cryptocoin_payable/commands/payment_processor.rb:78-89 | merging a fetched list twice, with any rates, is the same as merging it once |
| Transactions.OccursOnce | lib/cryptocoin_payable/commands/payment_processor.rb:80-85 | with unique hashes, a hash the ledger holds occurs exactly once |
| Transactions.MergeFetchedOnce | lib/cryptocoin_payable/commands/payment_processor.rb:78-89 | after the merge every fetched hash occurs exactly once in the ledger, even if fetched twice, with its last fetched confirmations |
| PaymentProcessor.Settled | lib/cryptocoin_payable/commands/payment_processor.rb:91-98 | `update_payment_state`: the settlement events fired in order on the loaded rows' paid amount and confirmations; `SettlementEvents`, `SettledCases` and `SettledConfirmGated` give its meaning |
| PaymentProcessor.ExpiryChecked | lib/cryptocoin_payable/commands/payment_processor.rb:100-102 | `update_payment_expired_state`: `expire` fired when `expired_at` is past, else nothing; `UpdatePaymentExpiredState` and `ReconcileExpiryNeedsElapsedGrace` use it |
| PaymentProcessor.ManyInserted | lib/cryptocoin_payable/commands/payment_processor.rb:78-89 | `update_via_many_insert`: the stored rows upserted, the created rows added to the loaded copy, and the amount due recomputed exactly when some hash was new; `MergedFrame`, `ManyInsertedSnoc` and `UpdateViaManyInsert` state it |
| PaymentProcessor.BulkInserted | lib/cryptocoin_payable/commands/payment_processor.rb:61-76 | `update_via_bulk_insert`: every row stamped and upserted, the loaded copy reloaded from the store, and the amount due recomputed; `MergedFrame` and `UpdateViaBulkInsert` state it |
| PaymentProcessor.Merged | lib/cryptocoin_payable/commands/payment_processor.rb:41-47 | the choice between the bulk and the many-insert path; `MergePathsAgree` relates the two |
| PaymentProcessor.Reconciled | lib/cryptocoin_payable/commands/payment_processor.rb:15-34 | one pass of `perform`'s loop as written: settle, stop once confirmed or on a fetch error, merge, settle again, expire if still pending; the `Reconcile*` lemmas and `Reconcile` state it |
| PaymentProcessor.Reloaded | lib/cryptocoin_payable/commands/payment_processor.rb:74 | `reload`: the loaded copy becomes the stored rows, and every other field, the memo included, stays |
| PaymentProcessor.ReconciledReloading | lib/cryptocoin_payable/commands/payment_processor.rb:15-34 | the corrected pass of the finding: `Reconciled` with a reload before each settlement; `ReloadingConfirmGated` and `ReloadingAgreesOnBulk` state it |
| PaymentProcessor.SettlementEvents | lib/cryptocoin_payable/commands/payment_processor.rb:91-98 | `pay` fires if and only if the price is covered, `confirm` if and only if it is also confirmed, `partially_pay` if and only if something short of the price was paid; never `comp` or `expire` |
| PaymentProcessor.SettledCovered | lib/cryptocoin_payable/commands/payment_processor.rb:92-94 | when the price is covered, settling is firing `pay` and, only if every row is confirmed, then `confirm` |
| PaymentProcessor.SettledShort | lib/cryptocoin_payable/commands/payment_processor.rb:95-97 | short of the price, settling is firing `partially_pay` if something was paid, and otherwise nothing happens |
| PaymentProcessor.SettledCases | lib/cryptocoin_payable/commands/payment_processor.rb:91-98 | the resulting state in each case of paid, price, state and confirmation; only state and calls change; a terminal payment is untouched |
| PaymentProcessor.PaidInFullConfirmsAtThreshold | lib/cryptocoin_payable/commands/payment_processor.rb:92-94 | a paid-in-full payment that is covered and confirmed becomes confirmed, although its `pay` is rejected; only the confirmed hooks run |
| PaymentProcessor.PartialPaymentStaysPut | lib/cryptocoin_payable/commands/payment_processor.rb:95-97 | a partial payment still short of the price is left exactly as it was |
| PaymentProcessor.SettledConfirmGated | lib/cryptocoin_payable/commands/payment_processor.rb:92-94 | settling confirms a payment only if the price is covered and every row meets the threshold |
| PaymentProcessor.SettledNeverExpiresOrComps | lib/cryptocoin_payable/commands/payment_processor.rb:91-98 | settling never leads to expired or comped |
| PaymentProcessor.FireAllTerminal | lib/cryptocoin_payable/coin_payment.rb:28-61 | any events fired at a terminal payment leave it unchanged, with no hook calls |
| PaymentProcessor.MergedFrame | lib/cryptocoin_payable/commands/payment_processor.rb:61-89 | either merge path changes only the ledger, the loaded rows, the amount due, the rate column and the memo; the ledger is the upsert of the rows stamped with the payment's rate; the loaded rows are the stored ones after the bulk path's `reload`, and otherwise the old loaded rows plus the created ones |
| PaymentProcessor.MergedKeepsRows | lib/cryptocoin_payable/commands/payment_processor.rb:61-89 | a merge keeps the loaded rows equal to the stored ones up to confirmations, so both pay the same |
| PaymentProcessor.MergePathsAgree | lib/cryptocoin_payable/commands/payment_processor.rb:61-89 | both paths build the same ledger; when no hash was new the many-insert path changes only the ledger; otherwise the paths differ only in the loaded rows and the amount due, and in the amount due not at all when the loaded rows matched the stored ones |
| PaymentProcessor.NoNewHashAfterMerge | lib/cryptocoin_payable/commands/payment_processor.rb:78-89 | after a merge no fetched hash is new to the ledger |
| PaymentProcessor.MergeIdempotentOnPayment | lib/cryptocoin_payable/commands/payment_processor.rb:61-89 | merging the same list a second time, on either path and at any later rate lookup, changes nothing, not even the amount due |
| PaymentProcessor.ReconcileSkipsFetchOnceConfirmed | lib/cryptocoin_payable/commands/payment_processor.rb:17-19 | once the pre-check confirms a payment, the pass ends there whatever the fetch gives, and the ledger is untouched |
| PaymentProcessor.ReconcileFetchErrorKeepsPrecheck | lib/cryptocoin_payable/commands/payment_processor.rb:21-27 | a fetch error leaves the payment as the pre-check left it, the ledger untouched |
| PaymentProcessor.FetchErrorNeverExpires | lib/cryptocoin_payable/commands/payment_processor.rb:21-34 | a pass whose fetch fails never expires the payment |
| PaymentProcessor.ReconcileExpiryNeedsElapsedGrace | lib/cryptocoin_payable/commands/payment_processor.rb:29-34 | a pass expires a payment only after a successful fetch, and only if there is a creation time and its grace period ended before `now` |
| PaymentProcessor.ReconcileExpiresUnpaidPending | lib/cryptocoin_payable/commands/payment_processor.rb:13-36 | a pending payment with nothing paid before and after the merge is expired once its grace period is over |
| PaymentProcessor.MergedUnpaidStaysPending | lib/cryptocoin_payable/commands/payment_processor.rb:29-30 | a merge that leaves a pending payment unpaid leaves it pending, with its creation time, through the post-check |
| PaymentProcessor.ReconciledExpiresWhenUnsettled | lib/cryptocoin_payable/commands/payment_processor.rb:29-34 | when neither check settles a pending payment, the pass expires it once its grace period is over |
| PaymentProcessor.ExpireFires | lib/cryptocoin_payable/coin_payment.rb:58-60 | `expire` takes a pending payment to expired |
| PaymentProcessor.ReconcileTerminalStays | lib/cryptocoin_payable/commands/payment_processor.rb:13-36 | a terminal payment keeps its state, and no hook runs |
| PaymentProcessor.ReconcileConfirmGated | lib/cryptocoin_payable/commands/payment_processor.rb:13-36 | a pass confirms a payment only if the rows its last settlement read cover the price and all meet the threshold; the stored ledger then covers the price too, when the loaded rows matched it; the threshold is not promised of the stored rows |
| PaymentProcessor.PreCheckConfirmGated | lib/cryptocoin_payable/commands/payment_processor.rb:17-19 | the same, when the pre-check confirms |
| PaymentProcessor.FetchedConfirmGated | lib/cryptocoin_payable/commands/payment_processor.rb:21-34 | the same, when only the post-check can confirm |
| PaymentProcessor.PostCheckConfirmGated | lib/cryptocoin_payable/commands/payment_processor.rb:22-30 | the post-check confirms only on loaded rows that cover the price and meet the threshold, and the stored rows then cover the price when the loaded ones matched them |
| PaymentProcessor.ReloadingConfirmGated | lib/cryptocoin_payable/commands/payment_processor.rb:13-36 | the pass that reads the stored rows at each settlement confirms a payment only if its stored ledger covers the price and every stored row meets the threshold |
| PaymentProcessor.ReloadingFetchedConfirmGated | lib/cryptocoin_payable/commands/payment_processor.rb:21-34 | the same, when only its post-check can confirm |
| PaymentProcessor.ReloadedPostCheckConfirmGated | lib/cryptocoin_payable/commands/payment_processor.rb:22-30 | after a reload, the post-check confirms only on stored rows that cover the price and meet the threshold |
| PaymentProcessor.ReloadingAgreesOnBulk | lib/cryptocoin_payable/commands/payment_processor.rb:61-76 | on the bulk path, for a payment fresh from the store, the reloading pass is the pass as written |
| PaymentProcessor.ReconcileMovesForward | lib/cryptocoin_payable/commands/payment_processor.rb:13-36 | a pass never moves a payment backwards in its lifecycle |
| PaymentProcessor.UpdatePaymentState | lib/cryptocoin_payable/commands/payment_processor.rb:91-98 | the new record is `Settled` of the old one |
| PaymentProcessor.UpdatePaymentExpiredState | lib/cryptocoin_payable/commands/payment_processor.rb:100-102 | the new record is the old one with `expire` fired exactly when `expired_at` is past |
| PaymentProcessor.ManyInsertStep | lib/cryptocoin_payable/commands/payment_processor.rb:80-86 | one iteration of the many-insert loop: a found row gets the fetched confirmations in the store only; a new row is stamped, created in both copies, and the amount due recomputed; `ManyInsertStepFound` and `ManyInsertStepNew` state it |
| PaymentProcessor.ManyInsertedSnoc | lib/cryptocoin_payable/commands/payment_processor.rb:79-87 | merging one more fetched row upserts it into the merge of the others; it is created, and the amount due recomputed, exactly when its hash is new there |
| PaymentProcessor.ManyInsertStepFound | lib/cryptocoin_payable/commands/payment_processor.rb:80-82 | a found row gets only its stored confirmations, and the loaded rows and the amount due are untouched |
| PaymentProcessor.ManyInsertStepNew | lib/cryptocoin_payable/commands/payment_processor.rb:83-86 | a new row is stamped, appended to the store and to the loaded rows, and the amount due recomputed |
| PaymentProcessor.ManyInsertStepExtends | lib/cryptocoin_payable/commands/payment_processor.rb:78-89 | one more iteration of the many-insert loop extends the merge of the prefix to the merge of one more fetched row |
| PaymentProcessor.InsertOrUpdate | lib/cryptocoin_payable/commands/payment_processor.rb:79-87 | one iteration, in place: unique hashes and the loaded copy's agreement with the store are kept, and the new record is one step of the many-insert merge |
| PaymentProcessor.UpdateViaManyInsert | lib/cryptocoin_payable/commands/payment_processor.rb:78-89 | the loop keeps unique hashes, and the new record is `ManyInserted` of the old one: the upsert, with the amount due recomputed if and only if some hash was new |
| PaymentProcessor.UpdateViaBulkInsert | lib/cryptocoin_payable/commands/payment_processor.rb:61-76 | the new record is `BulkInserted` of the old one: every row stamped with the payment's rate, upserted, the loaded rows reloaded, and the amount due always recomputed |
| PaymentProcessor.UpdateTransactionsFor | lib/cryptocoin_payable/commands/payment_processor.rb:38-50 | passes the fetch result on; an error changes nothing, and a list is merged by the chosen path |
| PaymentProcessor.Reconcile | lib/cryptocoin_payable/commands/payment_processor.rb:15-34 | one pass keeps unique hashes and the loaded copy's agreement with the store, and the new record is `Reconciled` of the old one: settle on the loaded rows, fetch, merge, settle again and expire a still-pending payment |
| PaymentProcessor.Visited | lib/cryptocoin_payable/commands/payment_processor.rb:14 | what `perform` does to one payment: a pass when its state is in the `unconfirmed` scope, and nothing otherwise; `Perform` states it for every payment |
| PaymentProcessor.VisitAt | lib/cryptocoin_payable/commands/payment_processor.rb:14-35 | the k-th payment is visited, and every other payment is unchanged |
| PaymentProcessor.Perform | lib/cryptocoin_payable/commands/payment_processor.rb:13-36 | every unconfirmed payment gets one pass with its own fetch, clock reading, rate lookup and coin type's threshold; the others are untouched, and every payment stays valid |
| Scenarios.FullPaymentConfirmsInOnePass | lib/cryptocoin_payable/commands/payment_processor.rb:13-36 | a fetch paying the whole price, deep enough, confirms a fresh invoice in one pass: one row, nothing due, the paid and then the confirmed hooks |
| Scenarios.HalfPaymentIsPartial | lib/cryptocoin_payable/commands/payment_processor.rb:13-36 | on the bulk path, half the price paid makes it a partial payment with half the subunits still due, and only the generic partially_paid hook runs |
| Scenarios.RefetchConfirms | lib/cryptocoin_payable/commands/payment_processor.rb:13-36 | on the bulk path, refetching a once-shallow transaction with more confirmations confirms a paid-in-full payment, keeping one row |
| Scenarios.RefetchUpdatesRow | lib/cryptocoin_payable/commands/payment_processor.rb:79-82 | on the many-insert path the refetched row gets its new confirmations in the store while the loaded copy keeps the old ones |
| Scenarios.BulkRefetchReloads | lib/cryptocoin_payable/commands/payment_processor.rb:61-76 | on the bulk path the refetched row is updated and reloaded |
| Scenarios.ManyInsertRefetchWaits | lib/cryptocoin_payable/commands/payment_processor.rb:29-34 | on the many-insert path the same refetch leaves the payment paid in full, with no hook run, since the post-check reads the stale copy; the reloading pass confirms it |
| Scenarios.ReorgMerged | lib/cryptocoin_payable/commands/payment_processor.rb:78-89 | the many-insert merge of the finding's fetch: the store holds h1 at two confirmations and h2, the loaded copy h1 at six and h2 |
| Scenarios.StaleConfirmationsConfirm | lib/cryptocoin_payable/commands/payment_processor.rb:29-30 | the pass as written confirms that payment although a stored row is below the threshold; the reloading pass leaves it paid in full |
| Scenarios.RepeatedHashStoredOnce | lib/cryptocoin_payable/commands/payment_processor.rb:78-89 | a hash fetched twice in one list is stored once, with the later confirmations |
| Scenarios.UnpaidInvoiceExpires | lib/cryptocoin_payable/commands/payment_processor.rb:29-34 | an unpaid invoice expires only after its grace period, and never without a creation time |
| Scenarios.OverpaidDueIsNegative | lib/cryptocoin_payable/coin_payment.rb:84-90 | paying twice the price makes the amount due minus the price's worth in subunits |
| Scenarios.CompNotifiesPaid | lib/cryptocoin_payable/coin_payment.rb:36-37 | `comp` on a fresh invoice makes it comped and runs the paid hooks |
| Scenarios.ShopHooks | lib/cryptocoin_payable/coin_payment.rb:129-150 | which hooks each notice runs on a payable with the paid, confirmed and generic hooks |
| Scenarios.SettleFullyPaid | lib/cryptocoin_payable/commands/payment_processor.rb:92-94 | a payment whose loaded rows are covered and confirmed is settled by `pay` then `confirm` |

## Left out

- Persistence is not modelled: ActiveRecord, `update!`, `find_each` batching, validations, the `before_create`/`after_create` hooks (including `populate_currency_and_amount_due`), and the `stale` and `unpaid` scopes. Fields are held directly. Of the association cache, only the loaded copy of the rows is modelled. It is taken as loaded when the payment is loaded, which agrees with the code because the pre-check reads it before any write. `reload` replaces it with the stored rows and keeps the memoised rate, which is an instance variable.
- Address creation, QR codes and their attachment are left out, because they are network and image I/O.
- `coin_amount_due_main`, `coin_amount_paid` and `coin_amount_paid_subunit` are left out. They are readers the reconciliation never uses.
- `update_transactions_for` returns the fetched list, which the code mutates in place: `coin_conversion` is written into each created row's hash (payment_processor.rb:84), and `coin_conversion` and `coin_payment_id` into every hash on the bulk path (payment_processor.rb:62-65). The model's fetched rows are values, so `UpdateTransactionsFor` returns the list as fetched and does not carry these writes.
- The adapter is not modelled. The blockchain fetch is a `Result` parameter. Each coin's subunit conversion is an exact positive constant, because the adapter's own code is not part of this model.
- Amounts.CoinsFor, Amounts.CoinsForCovers, Amounts.CalculateCoinAmountDueCovers: these hold only for an exact `convert_main_to_subunit`. If the adapter rounds to a whole subunit itself, the `.ceil` does nothing, and the result can fall short of the exact subunits, so "at least the exact subunits" and "covers the amount due" are not promised for such an adapter.
- The `CurrencyConversion` lookup is left out; it is the positive `latest` rate. A missing rate, which raises in the code, is not modelled.
- The clock is the integer `now`. The grace period and the confirmation threshold come from configuration and are parameters.
- The `.to_f` float division in `calculate_coin_amount_due` is not modelled: the model divides exactly over the reals, because float rounding is not modelled.
- `supports_bulk_insert?` probing is left out. Gem versions and database capabilities are replaced by the boolean `bulk`.
- `payment.transaction` atomicity and cross-worker locking are left out, because they are concurrency. An error raised partway through a merge is rolled back by the database. The model has no such error: only the fetch fails.
- The unique index on `transaction_hash` is modelled per payment's ledger. A hash that belongs to another payment is not modelled, and neither is a hash repeated within one bulk INSERT, which PostgreSQL would reject. The bulk import is modelled as upserts applied in list order.
- STDERR logging of a skipped payment is left out.
- The notification hooks are modelled only as the calls the payable receives. What the host's hooks do, and any error they raise, is left out.
- CoinPayments.FireAll: its contract keeps the earlier calls as a prefix but does not list the calls added. The settlement lemmas give the exact calls for the event sequences the processor fires.
- PaymentProcessor.ReconcileConfirmGated: on the many-insert path it promises the confirmation threshold only of the loaded rows that the post-check read, not of the stored rows, because the code as written can confirm with a stored row below the threshold (the finding above). `ReloadingConfirmGated` promises it of the stored rows for the corrected pass.
