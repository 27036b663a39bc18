/**
 * The reconciliation engine: the settlement rule, the two ways of merging a
 * fetched transaction list into a payment's ledger, one reconciliation pass
 * over a payment, and the batch over all unconfirmed payments.
 */
module PaymentProcessor {
  import opened Wrappers
  import opened Transactions
  import opened Amounts
  import opened PaymentStates
  import opened Notifications
  import opened CoinPayments

  // ---------------------------------------------------------------------
  // The effect of each step on a payment, as functions of its fields

  /**
   * The events `update_payment_state` fires, in order: `pay` and then, when
   * every row is confirmed, `confirm` once the price is covered; otherwise
   * `partially_pay` when something was paid; otherwise nothing.
   */
  function SettlementEvents(paid: int, price: int, confirmed: bool): (es: seq<Event>)
    ensures Pay in es <==> paid >= price
    ensures Confirm in es <==> paid >= price && confirmed
    ensures PartiallyPay in es <==> price > paid > 0
    ensures Comp !in es && Expire !in es
    ensures |es| <= 2
  {
    if paid >= price then [Pay] + (if confirmed then [Confirm] else [])
    else if paid > 0 then [PartiallyPay]
    else []
  }

  /** `update_payment_state`, reading the rows of the loaded association. */
  function Settled(r: PaymentRec, threshold: int): PaymentRec {
    FireAll(r, SettlementEvents(CurrencyAmountPaid(r.loaded, r.subunit), r.price,
                                TransactionsConfirmed(r.loaded, threshold)))
  }

  /** `update_payment_expired_state`. */
  function ExpiryChecked(r: PaymentRec, now: int, grace: int): PaymentRec {
    if IsExpired(r.createdAt, grace, now) then Fired(r, Expire) else r
  }

  /**
   * `update_via_many_insert`: each fetched row is upserted in the store; each
   * insert is stamped with the payment's rate, created through the association
   * (so it joins the loaded rows, as created) and followed by
   * `update_coin_amount_due`, so the amount due is recomputed exactly when some
   * hash was new. A row that already exists is found and updated by a query of
   * its own, so the loaded rows keep its old confirmations.
   */
  function ManyInserted(r: PaymentRec, fs: seq<FetchedTx>, latest: Rate): PaymentRec {
    var rows := Stamped(fs, RateOf(r, latest));
    var r1 := r.(transactions := UpsertAll(r.transactions, rows),
                 loaded := r.loaded + Inserted(r.transactions, rows));
    if HasNewHash(r.transactions, fs) then WithCoinAmountDue(r1, latest, None) else r1
  }

  /**
   * `update_via_bulk_insert`: every fetched row is stamped with the payment's
   * rate, imported with an upsert on `transaction_hash` that updates only
   * `confirmations`; `reload` drops the loaded association, so the amount
   * due, which is always recomputed, and later reads see the stored rows.
   */
  function BulkInserted(r: PaymentRec, fs: seq<FetchedTx>, latest: Rate): PaymentRec {
    var txs := UpsertAll(r.transactions, Stamped(fs, RateOf(r, latest)));
    WithCoinAmountDue(r.(transactions := txs, loaded := txs), latest, None)
  }

  function Merged(r: PaymentRec, fs: seq<FetchedTx>, latest: Rate, bulk: bool): PaymentRec {
    if bulk then BulkInserted(r, fs, latest) else ManyInserted(r, fs, latest)
  }

  /**
   * One pass of `perform` over a payment: settle on the stored rows; stop if
   * that confirmed it; stop if fetching (or merging) raised; else merge,
   * settle again, and expire it if it is still pending.
   */
  function Reconciled(r: PaymentRec, fetched: Result<seq<FetchedTx>>, now: int, grace: int,
                      threshold: int, latest: Rate, bulk: bool): PaymentRec
  {
    var pre := Settled(r, threshold);
    if pre.state == Confirmed then pre
    else match fetched
      case Err(_) => pre
      case Ok(fs) =>
        var post := Settled(Merged(pre, fs, latest, bulk), threshold);
        if post.state == Pending then ExpiryChecked(post, now, grace) else post
  }

  // ---------------------------------------------------------------------
  // Properties of settlement

  /** A single event fired through `FireAll` is that event fired. */
  lemma FireAllOne(r: PaymentRec, e: Event)
    ensures FireAll(r, [e]) == Fired(r, e)
  {
    assert [e][1..] == [];
  }

  /** Two events fired through `FireAll` are the two fired in order. */
  lemma FireAllTwo(r: PaymentRec, a: Event, b: Event)
    ensures FireAll(r, [a, b]) == Fired(Fired(r, a), b)
  {
    assert [a, b][1..] == [b];
    assert FireAll(Fired(r, a), [b]) == FireAll(Fired(Fired(r, a), b), []);
  }

  /** Nothing fired at a payment in a terminal state has any effect. */
  lemma {:induction false} FireAllTerminal(r: PaymentRec, es: seq<Event>)
    requires IsTerminal(r.state)
    ensures FireAll(r, es) == r
    decreases |es|
  {
    if |es| > 0 {
      assert Fired(r, es[0]) == r;
      FireAllTerminal(r, es[1..]);
    }
  }

  /** The three branches of `update_payment_state`, as sequences of firings. */
  lemma SettledCovered(r: PaymentRec, threshold: int)
    requires CurrencyAmountPaid(r.loaded, r.subunit) >= r.price
    ensures Settled(r, threshold) ==
      if TransactionsConfirmed(r.loaded, threshold) then Fired(Fired(r, Pay), Confirm) else Fired(r, Pay)
  {
    FireAllOne(r, Pay);
    FireAllTwo(r, Pay, Confirm);
  }

  lemma SettledShort(r: PaymentRec, threshold: int)
    requires CurrencyAmountPaid(r.loaded, r.subunit) < r.price
    ensures CurrencyAmountPaid(r.loaded, r.subunit) > 0 ==> Settled(r, threshold) == Fired(r, PartiallyPay)
    ensures CurrencyAmountPaid(r.loaded, r.subunit) <= 0 ==> Settled(r, threshold) == r
  {
    FireAllOne(r, PartiallyPay);
  }

  /** What `update_payment_state` does, case by case. */
  lemma SettledCases(r: PaymentRec, threshold: int)
    ensures var paid := CurrencyAmountPaid(r.loaded, r.subunit);
            var ok := TransactionsConfirmed(r.loaded, threshold);
            var s := Settled(r, threshold);
            && s == r.(state := s.state, calls := s.calls)
            && (paid >= r.price && (r.state == Pending || r.state == PartialPayment) ==>
                  s.state == (if ok then Confirmed else PaidInFull))
            && (paid >= r.price && r.state == PaidInFull ==> s.state == (if ok then Confirmed else PaidInFull))
            && (paid < r.price && paid > 0 && r.state == Pending ==> s.state == PartialPayment)
            && (paid < r.price && r.state != Pending ==> s == r)
            && (paid <= 0 && paid < r.price ==> s == r)
            && (IsTerminal(r.state) ==> s == r)
  {
    if CurrencyAmountPaid(r.loaded, r.subunit) >= r.price {
      SettledCovered(r, threshold);
    } else {
      SettledShort(r, threshold);
    }
  }

  /**
   * A payment already paid in full whose rows reach the threshold is
   * confirmed: its `pay` is rejected and only the confirmed hooks run.
   */
  lemma PaidInFullConfirmsAtThreshold(r: PaymentRec, threshold: int)
    requires r.state == PaidInFull
    requires CurrencyAmountPaid(r.loaded, r.subunit) >= r.price
    requires TransactionsConfirmed(r.loaded, threshold)
    ensures Settled(r, threshold) == r.(state := Confirmed, calls := r.calls + Dispatch(r.payable, NotifyConfirmed))
  {
    SettledCovered(r, threshold);
    assert Fired(r, Pay) == r;
  }

  /** A partly paid payment that is still short of the price stays as it is. */
  lemma PartialPaymentStaysPut(r: PaymentRec, threshold: int)
    requires r.state == PartialPayment
    requires 0 < CurrencyAmountPaid(r.loaded, r.subunit) < r.price
    ensures Settled(r, threshold) == r
  {
    FireAllTwo(r, PartiallyPay, Confirm);
  }

  /** Settlement confirms a payment only when the rows it reads cover the price and all meet the threshold. */
  lemma SettledConfirmGated(r: PaymentRec, threshold: int)
    requires r.state != Confirmed
    requires Settled(r, threshold).state == Confirmed
    ensures CurrencyAmountPaid(r.loaded, r.subunit) >= r.price
    ensures TransactionsConfirmed(r.loaded, threshold)
  {
    SettledCases(r, threshold);
  }

  /** Settlement never expires or comps a payment. */
  lemma SettledNeverExpiresOrComps(r: PaymentRec, threshold: int)
    ensures Settled(r, threshold).state == Expired ==> r.state == Expired
    ensures Settled(r, threshold).state == Comped ==> r.state == Comped
  {
    SettledCases(r, threshold);
  }

  // ---------------------------------------------------------------------
  // Properties of the merge

  /**
   * The merge touches only the ledger, its loaded rows, the amount due, the
   * rate column and the memo. The ledger is the upsert of the fetched rows
   * stamped with the payment's rate; the loaded rows are the stored ones after
   * the bulk path's reload, and the old loaded rows plus the created ones on
   * the other path.
   */
  lemma MergedFrame(r: PaymentRec, fs: seq<FetchedTx>, latest: Rate, bulk: bool)
    ensures var m := Merged(r, fs, latest, bulk);
      m == r.(transactions := m.transactions, loaded := m.loaded, coinAmountDue := m.coinAmountDue,
              coinConversion := m.coinConversion, cachedRate := m.cachedRate)
    ensures Merged(r, fs, latest, bulk).transactions == UpsertAll(r.transactions, Stamped(fs, RateOf(r, latest)))
    ensures Merged(r, fs, latest, bulk).loaded ==
      if bulk then Merged(r, fs, latest, bulk).transactions
      else r.loaded + Inserted(r.transactions, Stamped(fs, RateOf(r, latest)))
  {
  }

  /**
   * A merge keeps the loaded rows equal to the stored ones up to
   * confirmations, so what the instance reads as paid is what the ledger pays.
   */
  lemma MergedKeepsRows(r: PaymentRec, fs: seq<FetchedTx>, latest: Rate, bulk: bool)
    requires SameRows(r.loaded, r.transactions)
    ensures SameRows(Merged(r, fs, latest, bulk).loaded, Merged(r, fs, latest, bulk).transactions)
    ensures CurrencyAmountPaid(Merged(r, fs, latest, bulk).loaded, r.subunit) ==
            CurrencyAmountPaid(Merged(r, fs, latest, bulk).transactions, r.subunit)
  {
    var m := Merged(r, fs, latest, bulk);
    MergedFrame(r, fs, latest, bulk);
    if !bulk {
      UpsertAllInserted(r.loaded, r.transactions, Stamped(fs, RateOf(r, latest)));
    }
    SameRowsSamePaid(m.loaded, m.transactions, r.subunit);
  }

  /**
   * Both merge paths store the same ledger. Without a new hash the
   * many-insert path changes only the ledger; with one, it differs from the
   * bulk path only in its loaded rows and, through them, in nothing it pays.
   */
  lemma MergePathsAgree(r: PaymentRec, fs: seq<FetchedTx>, latest: Rate)
    ensures ManyInserted(r, fs, latest).transactions == BulkInserted(r, fs, latest).transactions
    ensures !HasNewHash(r.transactions, fs) ==>
      ManyInserted(r, fs, latest) == r.(transactions := ManyInserted(r, fs, latest).transactions)
    ensures HasNewHash(r.transactions, fs) ==>
      ManyInserted(r, fs, latest) == BulkInserted(r, fs, latest).(loaded := ManyInserted(r, fs, latest).loaded,
                                                                   coinAmountDue := ManyInserted(r, fs, latest).coinAmountDue)
    ensures HasNewHash(r.transactions, fs) && SameRows(r.loaded, r.transactions) ==>
      ManyInserted(r, fs, latest).coinAmountDue == BulkInserted(r, fs, latest).coinAmountDue
  {
    if !HasNewHash(r.transactions, fs) {
      InsertedNoNewHash(r.transactions, fs, RateOf(r, latest));
    } else if SameRows(r.loaded, r.transactions) {
      MergedKeepsRows(r, fs, latest, false);
    }
  }

  lemma NoNewHashAfterMerge(L: seq<Tx>, fs: seq<FetchedTx>, rate: Rate)
    ensures !HasNewHash(UpsertAll(L, Stamped(fs, rate)), fs)
  {
    HashSetStamped(fs, rate);
  }

  /**
   * Merging the same fetched list a second time, on either path and whatever
   * the rate lookup then says, adds no row and changes nothing, not even the
   * amount due.
   */
  lemma MergeIdempotentOnPayment(r: PaymentRec, fs: seq<FetchedTx>, l1: Rate, l2: Rate, bulk: bool)
    requires NoDuplicateHashes(r.transactions)
    ensures Merged(Merged(r, fs, l1, bulk), fs, l2, bulk) == Merged(r, fs, l1, bulk)
  {
    var m := Merged(r, fs, l1, bulk);
    MergeIdempotent(r.transactions, fs, RateOf(r, l1), RateOf(m, l2));
    NoNewHashAfterMerge(r.transactions, fs, RateOf(r, l1));
    InsertedNoNewHash(m.transactions, fs, RateOf(m, l2));
    if bulk {
      assert RateOf(m, l2) == RateOf(r, l1);
    }
  }

  // ---------------------------------------------------------------------
  // Properties of a reconciliation pass

  /** Once the pre-check confirms a payment, nothing is fetched and nothing more happens. */
  lemma ReconcileSkipsFetchOnceConfirmed(r: PaymentRec, fetched: Result<seq<FetchedTx>>, now: int,
                                         grace: int, threshold: int, latest: Rate, bulk: bool)
    requires Settled(r, threshold).state == Confirmed
    ensures Reconciled(r, fetched, now, grace, threshold, latest, bulk) == Settled(r, threshold)
    ensures Reconciled(r, fetched, now, grace, threshold, latest, bulk).transactions == r.transactions
  {
    SettledCases(r, threshold);
  }

  /**
   * A fetch (or merge) error leaves the payment as the pre-check left it: its
   * ledger untouched and no expiry.
   */
  lemma ReconcileFetchErrorKeepsPrecheck(r: PaymentRec, msg: string, now: int, grace: int,
                                         threshold: int, latest: Rate, bulk: bool)
    ensures Reconciled(r, Err(msg), now, grace, threshold, latest, bulk) == Settled(r, threshold)
    ensures Reconciled(r, Err(msg), now, grace, threshold, latest, bulk).transactions == r.transactions
  {
    SettledCases(r, threshold);
  }

  /** So a payment whose fetch keeps failing is never expired, however old it is. */
  lemma FetchErrorNeverExpires(r: PaymentRec, msg: string, now: int, grace: int,
                               threshold: int, latest: Rate, bulk: bool)
    requires r.state != Expired
    ensures Reconciled(r, Err(msg), now, grace, threshold, latest, bulk).state != Expired
  {
    SettledNeverExpiresOrComps(r, threshold);
  }

  /**
   * A pass expires a payment only after a successful fetch, and only when it
   * has a creation time and its grace period ended before `now`.
   */
  lemma ReconcileExpiryNeedsElapsedGrace(r: PaymentRec, fetched: Result<seq<FetchedTx>>, now: int,
                                         grace: int, threshold: int, latest: Rate, bulk: bool)
    requires r.state != Expired
    requires Reconciled(r, fetched, now, grace, threshold, latest, bulk).state == Expired
    ensures fetched.Ok?
    ensures r.createdAt.Some? && r.createdAt.value + grace < now
  {
    var pre := Settled(r, threshold);
    SettledNeverExpiresOrComps(r, threshold);
    if fetched.Ok? {
      var m := Merged(pre, fetched.value, latest, bulk);
      SettledNeverExpiresOrComps(m, threshold);
    }
  }

  /**
   * A pending payment on which nothing has been paid, before or after the
   * merge, is expired once its grace period is over; and stays so.
   */
  lemma ReconcileExpiresUnpaidPending(r: PaymentRec, fs: seq<FetchedTx>, now: int, grace: int,
                                      threshold: int, latest: Rate, bulk: bool)
    requires r.state == Pending && r.price > 0
    requires CurrencyAmountPaid(r.loaded, r.subunit) == 0
    requires CurrencyAmountPaid(Merged(r, fs, latest, bulk).loaded, r.subunit) == 0
    requires IsExpired(r.createdAt, grace, now)
    ensures Reconciled(r, Ok(fs), now, grace, threshold, latest, bulk).state == Expired
  {
    SettledShort(r, threshold);
    MergedUnpaidStaysPending(r, fs, threshold, latest, bulk);
    ReconciledExpiresWhenUnsettled(r, fs, now, grace, threshold, latest, bulk);
  }

  /** A merge that leaves a pending payment unpaid leaves it pending through the post-check. */
  lemma MergedUnpaidStaysPending(r: PaymentRec, fs: seq<FetchedTx>, threshold: int, latest: Rate, bulk: bool)
    requires r.state == Pending && r.price > 0
    requires CurrencyAmountPaid(Merged(r, fs, latest, bulk).loaded, r.subunit) == 0
    ensures Settled(Merged(r, fs, latest, bulk), threshold) == Merged(r, fs, latest, bulk)
    ensures Merged(r, fs, latest, bulk).state == Pending
    ensures Merged(r, fs, latest, bulk).createdAt == r.createdAt
  {
    var m := Merged(r, fs, latest, bulk);
    assert m.state == Pending && m.price == r.price && m.subunit == r.subunit && m.createdAt == r.createdAt by {
      MergedFrame(r, fs, latest, bulk);
    }
    SettledShort(m, threshold);
  }

  /** When neither check settles a pending payment, the pass expires it once the grace period is over. */
  lemma ReconciledExpiresWhenUnsettled(r: PaymentRec, fs: seq<FetchedTx>, now: int, grace: int,
                                       threshold: int, latest: Rate, bulk: bool)
    requires r.state == Pending && Settled(r, threshold) == r
    requires Settled(Merged(r, fs, latest, bulk), threshold) == Merged(r, fs, latest, bulk)
    requires Merged(r, fs, latest, bulk).state == Pending
    requires IsExpired(Merged(r, fs, latest, bulk).createdAt, grace, now)
    ensures Reconciled(r, Ok(fs), now, grace, threshold, latest, bulk).state == Expired
  {
    var m := Merged(r, fs, latest, bulk);
    assert Reconciled(r, Ok(fs), now, grace, threshold, latest, bulk) == ExpiryChecked(m, now, grace);
    assert ExpiryChecked(m, now, grace) == Fired(m, Expire);
    ExpireFires(m);
  }

  lemma ExpireFires(r: PaymentRec)
    requires r.state == Pending
    ensures Fired(r, Expire).state == Expired
  {
  }

  /** A payment in a terminal state keeps its state, and no hook runs. */
  lemma ReconcileTerminalStays(r: PaymentRec, fetched: Result<seq<FetchedTx>>, now: int,
                               grace: int, threshold: int, latest: Rate, bulk: bool)
    requires IsTerminal(r.state)
    ensures Reconciled(r, fetched, now, grace, threshold, latest, bulk).state == r.state
    ensures Reconciled(r, fetched, now, grace, threshold, latest, bulk).calls == r.calls
  {
    SettledCases(r, threshold);
    if fetched.Ok? {
      SettledCases(Merged(r, fetched.value, latest, bulk), threshold);
    }
  }

  /**
   * A pass confirms a payment only when the rows its last settlement read
   * cover the price and all meet the confirmation threshold. Those loaded
   * rows pay what the stored ones pay, so the stored ledger covers the price
   * too; but their confirmations can be older than the stored ones, so the
   * threshold is not promised of the stored ledger (`ReloadingConfirmGated`
   * is the pass that promises it).
   */
  lemma ReconcileConfirmGated(r: PaymentRec, fetched: Result<seq<FetchedTx>>, now: int,
                              grace: int, threshold: int, latest: Rate, bulk: bool)
    requires r.state != Confirmed
    requires Reconciled(r, fetched, now, grace, threshold, latest, bulk).state == Confirmed
    ensures var out := Reconciled(r, fetched, now, grace, threshold, latest, bulk);
      TransactionsConfirmed(out.loaded, threshold) &&
      CurrencyAmountPaid(out.loaded, r.subunit) >= r.price
    ensures SameRows(r.loaded, r.transactions) ==>
      CurrencyAmountPaid(Reconciled(r, fetched, now, grace, threshold, latest, bulk).transactions, r.subunit) >= r.price
  {
    if Settled(r, threshold).state == Confirmed {
      PreCheckConfirmGated(r, fetched, now, grace, threshold, latest, bulk);
    } else {
      FetchedConfirmGated(r, fetched, now, grace, threshold, latest, bulk);
    }
  }

  /** `ReconcileConfirmGated` when the pre-check already confirms. */
  lemma PreCheckConfirmGated(r: PaymentRec, fetched: Result<seq<FetchedTx>>, now: int,
                             grace: int, threshold: int, latest: Rate, bulk: bool)
    requires r.state != Confirmed && Settled(r, threshold).state == Confirmed
    ensures var out := Reconciled(r, fetched, now, grace, threshold, latest, bulk);
      TransactionsConfirmed(out.loaded, threshold) &&
      CurrencyAmountPaid(out.loaded, r.subunit) >= r.price
    ensures SameRows(r.loaded, r.transactions) ==>
      CurrencyAmountPaid(Reconciled(r, fetched, now, grace, threshold, latest, bulk).transactions, r.subunit) >= r.price
  {
    var pre := Settled(r, threshold);
    assert pre == r.(state := pre.state, calls := pre.calls) by { SettledCases(r, threshold); }
    assert Reconciled(r, fetched, now, grace, threshold, latest, bulk) == pre;
    SettledConfirmGated(r, threshold);
    if SameRows(r.loaded, r.transactions) {
      SameRowsSamePaid(r.loaded, r.transactions, r.subunit);
    }
  }

  /** `ReconcileConfirmGated` when only the post-check can confirm. */
  lemma FetchedConfirmGated(r: PaymentRec, fetched: Result<seq<FetchedTx>>, now: int,
                            grace: int, threshold: int, latest: Rate, bulk: bool)
    requires r.state != Confirmed && Settled(r, threshold).state != Confirmed
    requires Reconciled(r, fetched, now, grace, threshold, latest, bulk).state == Confirmed
    ensures var out := Reconciled(r, fetched, now, grace, threshold, latest, bulk);
      TransactionsConfirmed(out.loaded, threshold) &&
      CurrencyAmountPaid(out.loaded, r.subunit) >= r.price
    ensures SameRows(r.loaded, r.transactions) ==>
      CurrencyAmountPaid(Reconciled(r, fetched, now, grace, threshold, latest, bulk).transactions, r.subunit) >= r.price
  {
    var out := Reconciled(r, fetched, now, grace, threshold, latest, bulk);
    var pre := Settled(r, threshold);
    assert pre == r.(state := pre.state, calls := pre.calls) by { SettledCases(r, threshold); }
    assert fetched.Ok?;
    var post := Settled(Merged(pre, fetched.value, latest, bulk), threshold);
    assert out == post by {
      assert post.state == Pending ==> ExpiryChecked(post, now, grace).state != Confirmed;
    }
    PostCheckConfirmGated(pre, fetched.value, threshold, latest, bulk);
  }

  /** The post-check confirms only on loaded rows that cover the price and meet the threshold. */
  lemma PostCheckConfirmGated(p: PaymentRec, fs: seq<FetchedTx>, threshold: int, latest: Rate, bulk: bool)
    requires p.state != Confirmed
    requires Settled(Merged(p, fs, latest, bulk), threshold).state == Confirmed
    ensures var out := Settled(Merged(p, fs, latest, bulk), threshold);
      TransactionsConfirmed(out.loaded, threshold) && CurrencyAmountPaid(out.loaded, p.subunit) >= p.price
    ensures SameRows(p.loaded, p.transactions) ==>
      CurrencyAmountPaid(Settled(Merged(p, fs, latest, bulk), threshold).transactions, p.subunit) >= p.price
  {
    var m := Merged(p, fs, latest, bulk);
    var post := Settled(m, threshold);
    assert m.state == p.state && m.price == p.price && m.subunit == p.subunit by { MergedFrame(p, fs, latest, bulk); }
    assert post.transactions == m.transactions && post.loaded == m.loaded by { SettledCases(m, threshold); }
    SettledConfirmGated(m, threshold);
    if SameRows(p.loaded, p.transactions) {
      MergedKeepsRows(p, fs, latest, bulk);
    }
  }

  /** A pass only moves a payment forward along its lifecycle. */
  lemma ReconcileMovesForward(r: PaymentRec, fetched: Result<seq<FetchedTx>>, now: int,
                              grace: int, threshold: int, latest: Rate, bulk: bool)
    ensures Rank(Reconciled(r, fetched, now, grace, threshold, latest, bulk).state) >= Rank(r.state)
  {
  }

  // ---------------------------------------------------------------------
  // The pass that reloads before each settlement

  /** `payment.reload`: the loaded association is dropped, so the next read loads the stored rows. */
  function Reloaded(r: PaymentRec): PaymentRec {
    r.(loaded := r.transactions)
  }

  /**
   * The pass with each settlement reading the stored rows, as the bulk path's
   * `reload` already makes the post-check do; on the many-insert path the
   * post-check otherwise reads confirmations older than the stored ones.
   */
  function ReconciledReloading(r: PaymentRec, fetched: Result<seq<FetchedTx>>, now: int, grace: int,
                               threshold: int, latest: Rate, bulk: bool): PaymentRec
  {
    var pre := Settled(Reloaded(r), threshold);
    if pre.state == Confirmed then pre
    else match fetched
      case Err(_) => pre
      case Ok(fs) =>
        var post := Settled(Reloaded(Merged(pre, fs, latest, bulk)), threshold);
        if post.state == Pending then ExpiryChecked(post, now, grace) else post
  }

  /**
   * The reloading pass confirms a payment only when the ledger it stores
   * covers the price and every stored row meets the threshold.
   */
  lemma ReloadingConfirmGated(r: PaymentRec, fetched: Result<seq<FetchedTx>>, now: int,
                              grace: int, threshold: int, latest: Rate, bulk: bool)
    requires r.state != Confirmed
    requires ReconciledReloading(r, fetched, now, grace, threshold, latest, bulk).state == Confirmed
    ensures var out := ReconciledReloading(r, fetched, now, grace, threshold, latest, bulk);
      TransactionsConfirmed(out.transactions, threshold) &&
      CurrencyAmountPaid(out.transactions, r.subunit) >= r.price
  {
    var r0 := Reloaded(r);
    var pre := Settled(r0, threshold);
    if pre.state == Confirmed {
      assert ReconciledReloading(r, fetched, now, grace, threshold, latest, bulk) == pre;
      SettledConfirmGated(r0, threshold);
      assert pre.transactions == r0.transactions && pre.loaded == r0.loaded by { SettledCases(r0, threshold); }
    } else {
      ReloadingFetchedConfirmGated(r, fetched, now, grace, threshold, latest, bulk);
    }
  }

  /** `ReloadingConfirmGated` when only the post-check can confirm. */
  lemma ReloadingFetchedConfirmGated(r: PaymentRec, fetched: Result<seq<FetchedTx>>, now: int,
                                     grace: int, threshold: int, latest: Rate, bulk: bool)
    requires r.state != Confirmed && Settled(Reloaded(r), threshold).state != Confirmed
    requires ReconciledReloading(r, fetched, now, grace, threshold, latest, bulk).state == Confirmed
    ensures var out := ReconciledReloading(r, fetched, now, grace, threshold, latest, bulk);
      TransactionsConfirmed(out.transactions, threshold) &&
      CurrencyAmountPaid(out.transactions, r.subunit) >= r.price
  {
    var out := ReconciledReloading(r, fetched, now, grace, threshold, latest, bulk);
    var r0 := Reloaded(r);
    var pre := Settled(r0, threshold);
    assert pre == r0.(state := pre.state, calls := pre.calls) by { SettledCases(r0, threshold); }
    assert fetched.Ok?;
    var post := Settled(Reloaded(Merged(pre, fetched.value, latest, bulk)), threshold);
    assert out == post by {
      assert post.state == Pending ==> ExpiryChecked(post, now, grace).state != Confirmed;
    }
    ReloadedPostCheckConfirmGated(pre, fetched.value, threshold, latest, bulk);
  }

  /** After a reload, the post-check confirms only on stored rows that cover the price and meet the threshold. */
  lemma ReloadedPostCheckConfirmGated(p: PaymentRec, fs: seq<FetchedTx>, threshold: int, latest: Rate, bulk: bool)
    requires p.state != Confirmed
    requires Settled(Reloaded(Merged(p, fs, latest, bulk)), threshold).state == Confirmed
    ensures var out := Settled(Reloaded(Merged(p, fs, latest, bulk)), threshold);
      TransactionsConfirmed(out.transactions, threshold) && CurrencyAmountPaid(out.transactions, p.subunit) >= p.price
  {
    var m := Reloaded(Merged(p, fs, latest, bulk));
    var post := Settled(m, threshold);
    assert m.state == p.state && m.price == p.price && m.subunit == p.subunit by { MergedFrame(p, fs, latest, bulk); }
    assert post.transactions == m.transactions && post.loaded == m.loaded by { SettledCases(m, threshold); }
    SettledConfirmGated(m, threshold);
  }

  /** On the bulk path, and for a payment fresh from the store, the reloading pass is the pass as written. */
  lemma ReloadingAgreesOnBulk(r: PaymentRec, fetched: Result<seq<FetchedTx>>, now: int,
                              grace: int, threshold: int, latest: Rate)
    requires r.loaded == r.transactions
    ensures ReconciledReloading(r, fetched, now, grace, threshold, latest, true) ==
            Reconciled(r, fetched, now, grace, threshold, latest, true)
  {
    assert Reloaded(r) == r;
    var pre := Settled(r, threshold);
    if fetched.Ok? {
      var m := Merged(pre, fetched.value, latest, true);
      assert Reloaded(m) == m by { MergedFrame(pre, fetched.value, latest, true); }
    }
  }

  // ---------------------------------------------------------------------
  // The processor, in place

  /** `update_payment_state`. */
  method UpdatePaymentState(p: Payment, threshold: int)
    modifies p
    ensures p.Rec() == Settled(old(p.Rec()), threshold)
  {
    ghost var r0 := p.Rec();
    var paid := CurrencyAmountPaid(p.loaded, p.subunit);
    if paid >= p.price {
      var _ := p.Fire(Pay);
      if TransactionsConfirmed(p.loaded, threshold) {
        var _ := p.Fire(Confirm);
        FireAllTwo(r0, Pay, Confirm);
      } else {
        FireAllOne(r0, Pay);
      }
    } else if paid > 0 {
      var _ := p.Fire(PartiallyPay);
      FireAllOne(r0, PartiallyPay);
    }
  }

  /** `update_payment_expired_state`: `expire` once `expired_at` is past. */
  method UpdatePaymentExpiredState(p: Payment, now: int, grace: int)
    modifies p
    ensures p.Rec() == ExpiryChecked(old(p.Rec()), now, grace)
  {
    var expiredAt := ExpiredAt(p.createdAt, grace);
    if expiredAt.Some? && expiredAt.value < now {
      var expired := p.Fire(Expire);
    }
  }

  lemma HasNewHashStep(L: seq<Tx>, fs: seq<FetchedTx>, i: nat, rate: Rate)
    requires i < |fs|
    ensures HasNewHash(L, fs[..i + 1]) <==>
      HasNewHash(L, fs[..i]) || fs[i].hash !in HashSet(UpsertAll(L, Stamped(fs[..i], rate)))
  {
    var pre := fs[..i];
    var ext := fs[..i + 1];
    var rows := Stamped(pre, rate);
    var h := fs[i].hash;
    assert forall k :: 0 <= k < i ==> ext[k] == pre[k];
    assert ext[i] == fs[i];
    assert HashSet(UpsertAll(L, rows)) == HashSet(L) + HashSet(rows);
    if !HasNewHash(L, pre) {
      assert HashSet(rows) <= HashSet(L) by {
        forall x | x in HashSet(rows) ensures x in HashSet(L) {
          var k :| 0 <= k < |rows| && rows[k].hash == x;
          assert pre[k].hash == x;
        }
      }
      if HasNewHash(L, ext) {
        var k :| 0 <= k < i + 1 && ext[k].hash !in HashSet(L);
        assert k == i;
      }
    } else {
      var k :| 0 <= k < i && pre[k].hash !in HashSet(L);
      assert ext[k].hash !in HashSet(L);
    }
  }

  lemma StampedSnoc(fs: seq<FetchedTx>, i: nat, rate: Rate)
    requires i < |fs|
    ensures Stamped(fs[..i + 1], rate) == Stamped(fs[..i], rate) + [Stamp(fs[i], rate)]
  {
  }

  /**
   * One iteration of `update_via_many_insert`: a stored row with the fetched
   * hash has its confirmations overwritten, through a query of its own, so
   * the loaded rows do not see it; otherwise the fetched transaction is
   * created through the association, stamped with the payment's rate, and
   * the amount due recomputed.
   */
  function ManyInsertStep(r: PaymentRec, f: FetchedTx, latest: Rate): PaymentRec {
    match Find(r.transactions, f.hash)
    case Some(j) =>
      r.(transactions := r.transactions[j := r.transactions[j].(confirmations := f.confirmations)])
    case None =>
      var row := Stamp(f, RateOf(r, latest));
      WithCoinAmountDue(r.(transactions := r.transactions + [row], loaded := r.loaded + [row]), latest, None)
  }

  /** Iterating the step over the fetched list is the many-insert merge. */
  lemma ManyInsertStepExtends(r0: PaymentRec, fs: seq<FetchedTx>, i: nat, latest: Rate)
    requires i < |fs|
    ensures ManyInsertStep(ManyInserted(r0, fs[..i], latest), fs[i], latest) == ManyInserted(r0, fs[..i + 1], latest)
  {
    var rate := RateOf(r0, latest);
    var before := UpsertAll(r0.transactions, Stamped(fs[..i], rate));
    var created := Inserted(r0.transactions, Stamped(fs[..i], rate));
    var h := HasNewHash(r0.transactions, fs[..i]);
    ManyInsertedSnoc(r0, fs, i, latest);
    assert ManyInserted(r0, fs[..i], latest) == AfterUpsert(r0, before, created, latest, h);
    if fs[i].hash in HashSet(before) {
      ManyInsertStepFound(r0, before, created, fs[i], latest, h);
    } else {
      ManyInsertStepNew(r0, before, created, fs[i], latest, h);
    }
  }

  /** The many-insert merge of one more fetched row, as an upsert into the merge of the others. */
  lemma ManyInsertedSnoc(r0: PaymentRec, fs: seq<FetchedTx>, i: nat, latest: Rate)
    requires i < |fs|
    ensures var rate := RateOf(r0, latest);
      var before := UpsertAll(r0.transactions, Stamped(fs[..i], rate));
      var created := Inserted(r0.transactions, Stamped(fs[..i], rate));
      var row := Stamp(fs[i], rate);
      ManyInserted(r0, fs[..i + 1], latest) ==
        if fs[i].hash in HashSet(before)
        then AfterUpsert(r0, Upsert(before, row), created, latest, HasNewHash(r0.transactions, fs[..i]))
        else AfterUpsert(r0, Upsert(before, row), created + [row], latest, true)
  {
    var rate := RateOf(r0, latest);
    var before := UpsertAll(r0.transactions, Stamped(fs[..i], rate));
    var created := Inserted(r0.transactions, Stamped(fs[..i], rate));
    var row := Stamp(fs[i], rate);
    StampedSnoc(fs, i, rate);
    HasNewHashStep(r0.transactions, fs, i, rate);
    var rows := Stamped(fs[..i + 1], rate);
    assert rows[..|rows| - 1] == Stamped(fs[..i], rate);
    assert UpsertAll(r0.transactions, rows) == Upsert(before, row);
    if fs[i].hash in HashSet(before) {
      assert Inserted(r0.transactions, rows) == created + [];
      assert created + [] == created;
    } else {
      assert Inserted(r0.transactions, rows) == created + [row];
    }
  }

  /**
   * The payment after upserting into ledger `T` with rows `C` created, the
   * amount due recomputed when `h`.
   */
  function AfterUpsert(r0: PaymentRec, T: seq<Tx>, C: seq<Tx>, latest: Rate, h: bool): PaymentRec {
    var x := r0.(transactions := T, loaded := r0.loaded + C);
    if h then WithCoinAmountDue(x, latest, None) else x
  }

  lemma ManyInsertStepFound(r0: PaymentRec, T: seq<Tx>, C: seq<Tx>, f: FetchedTx, latest: Rate, h: bool)
    requires Find(T, f.hash).Some?
    ensures ManyInsertStep(AfterUpsert(r0, T, C, latest, h), f, latest)
      == AfterUpsert(r0, Upsert(T, Stamp(f, RateOf(r0, latest))), C, latest, h)
  {
    var j := Find(T, f.hash).value;
    assert Upsert(T, Stamp(f, RateOf(r0, latest))) == T[j := T[j].(confirmations := f.confirmations)];
  }

  lemma ManyInsertStepNew(r0: PaymentRec, T: seq<Tx>, C: seq<Tx>, f: FetchedTx, latest: Rate, h: bool)
    requires Find(T, f.hash).None?
    ensures ManyInsertStep(AfterUpsert(r0, T, C, latest, h), f, latest)
      == AfterUpsert(r0, Upsert(T, Stamp(f, RateOf(r0, latest))), C + [Stamp(f, RateOf(r0, latest))], latest, true)
  {
    assert RateOf(AfterUpsert(r0, T, C, latest, h), latest) == RateOf(r0, latest);
    assert r0.loaded + C + [Stamp(f, RateOf(r0, latest))] == r0.loaded + (C + [Stamp(f, RateOf(r0, latest))]);
  }

  method InsertOrUpdate(p: Payment, f: FetchedTx, latest: Rate)
    requires p.Valid()
    modifies p
    ensures p.Valid()
    ensures p.Rec() == ManyInsertStep(old(p.Rec()), f, latest)
  {
    match Find(p.transactions, f.hash)
    case Some(j) =>
      // an existing row, found by a query: only its stored confirmations are overwritten
      SansConfirmationsSetConfs(p.transactions, j, f.confirmations);
      p.transactions := p.transactions[j := p.transactions[j].(confirmations := f.confirmations)];
      assert p.transactions == Upsert(old(p.transactions), Stamp(f, RateOf(old(p.Rec()), latest)));
    case None =>
      // a new row: stamped with the payment's rate and created through the association
      var stampRate := p.CoinConversion(latest);
      var row := Stamp(f, stampRate);
      SansConfirmationsAppend(p.transactions, [row]);
      SansConfirmationsAppend(p.loaded, [row]);
      p.transactions := p.transactions + [row];
      p.loaded := p.loaded + [row];
      assert p.transactions == Upsert(old(p.transactions), row);
      p.UpdateCoinAmountDue(latest, None);
  }

  method UpdateViaManyInsert(p: Payment, fs: seq<FetchedTx>, latest: Rate)
    requires p.Valid()
    modifies p
    ensures p.Valid()
    ensures p.Rec() == ManyInserted(old(p.Rec()), fs, latest)
  {
    ghost var r0 := p.Rec();
    var i := 0;
    assert fs[..0] == [];
    while i < |fs|
      invariant 0 <= i <= |fs|
      invariant p.Valid()
      invariant p.Rec() == ManyInserted(r0, fs[..i], latest)
    {
      InsertOrUpdate(p, fs[i], latest);
      ManyInsertStepExtends(r0, fs, i, latest);
      i := i + 1;
    }
    assert fs[..|fs|] == fs;
  }

  method UpdateViaBulkInsert(p: Payment, fs: seq<FetchedTx>, latest: Rate)
    requires p.Valid()
    modifies p
    ensures p.Valid()
    ensures p.Rec() == BulkInserted(old(p.Rec()), fs, latest)
  {
    ghost var r0 := p.Rec();
    ghost var rate := RateOf(r0, latest);
    var rows: seq<Tx> := [];
    var i := 0;
    while i < |fs|
      invariant 0 <= i <= |fs|
      invariant rows == Stamped(fs[..i], rate)
      invariant p.Rec() == if i == 0 then r0 else r0.(cachedRate := Some(rate))
    {
      // stamp each fetched row with the payment's rate
      var stampRate := p.CoinConversion(latest);
      StampedSnoc(fs, i, rate);
      rows := rows + [Stamp(fs[i], stampRate)];
      i := i + 1;
    }
    assert fs[..|fs|] == fs;
    // one import, upserting on the hash and updating only confirmations; then `reload`
    p.transactions := UpsertAll(p.transactions, rows);
    p.loaded := p.transactions;
    p.UpdateCoinAmountDue(latest, None);
  }

  /**
   * `update_transactions_for`, given what the adapter's fetch produced: an
   * error changes nothing and is passed on; a list is merged by one of the
   * two paths.
   */
  method UpdateTransactionsFor(p: Payment, fetched: Result<seq<FetchedTx>>, latest: Rate, bulk: bool)
      returns (res: Result<seq<FetchedTx>>)
    requires p.Valid()
    modifies p
    ensures p.Valid()
    ensures res == fetched
    ensures p.Rec() == match fetched
      case Err(_) => old(p.Rec())
      case Ok(fs) => Merged(old(p.Rec()), fs, latest, bulk)
  {
    match fetched
    case Err(_) =>
      res := fetched;
    case Ok(fs) =>
      if bulk {
        UpdateViaBulkInsert(p, fs, latest);
      } else {
        UpdateViaManyInsert(p, fs, latest);
      }
      res := fetched;
  }

  /** The body of `perform`'s loop, for one payment. */
  method Reconcile(p: Payment, fetched: Result<seq<FetchedTx>>, now: int, grace: int,
                   threshold: int, latest: Rate, bulk: bool)
    requires p.Valid()
    modifies p
    ensures p.Valid()
    ensures p.Rec() == Reconciled(old(p.Rec()), fetched, now, grace, threshold, latest, bulk)
  {
    UpdatePaymentState(p, threshold);
    if p.state == Confirmed {
      return;
    }
    var res := UpdateTransactionsFor(p, fetched, latest, bulk);
    if res.Err? {
      return;
    }
    UpdatePaymentState(p, threshold);
    if p.state == Pending {
      UpdatePaymentExpiredState(p, now, grace);
    }
  }

  /** What one pass of `perform` does to a payment record. */
  function Visited(r: PaymentRec, fetched: Result<seq<FetchedTx>>, now: int, grace: int,
                   threshold: int, latest: Rate, bulk: bool): PaymentRec
  {
    if Unconfirmed(r.state) then Reconciled(r, fetched, now, grace, threshold, latest, bulk) else r
  }

  /** The records of a list of payments. */
  ghost function Recs(ps: seq<Payment>): (rs: seq<PaymentRec>)
    reads set i | 0 <= i < |ps| :: ps[i]
    ensures |rs| == |ps|
    ensures forall i :: 0 <= i < |ps| ==> rs[i] == ps[i].Rec()
  {
    if ps == [] then [] else [ps[0].Rec()] + Recs(ps[1..])
  }

  /** One iteration of `perform`'s loop: the k-th payment is visited and no other changes. */
  method VisitAt(payments: seq<Payment>, k: nat, fetched: Result<seq<FetchedTx>>, now: int, grace: int,
                 threshold: int, latest: Rate, bulk: bool)
    requires k < |payments|
    requires forall i, j :: 0 <= i < j < |payments| ==> payments[i] != payments[j]
    requires payments[k].Valid()
    modifies payments[k]
    ensures payments[k].Valid()
    ensures payments[k].Rec() == Visited(old(payments[k].Rec()), fetched, now, grace, threshold, latest, bulk)
    ensures forall i :: 0 <= i < |payments| && i != k ==>
      payments[i].Rec() == old(payments[i].Rec()) && payments[i].Valid() == old(payments[i].Valid())
  {
    var p := payments[k];
    if Unconfirmed(p.state) {
      Reconcile(p, fetched, now, grace, threshold, latest, bulk);
    }
  }

  /**
   * `perform`: every payment in the `unconfirmed` scope gets one pass, with
   * its own fetch result, clock reading and rate lookup (`nows[i]`,
   * `latests[i]`: the clock and the rate table are read anew for each
   * payment) and its coin type's threshold; the others are not touched.
   */
  method Perform(payments: seq<Payment>, fetches: seq<Result<seq<FetchedTx>>>, nows: seq<int>,
                 latests: seq<Rate>, grace: int, threshold: CoinType -> int, bulk: bool)
    requires |fetches| == |payments| && |nows| == |payments| && |latests| == |payments|
    requires forall i, j :: 0 <= i < j < |payments| ==> payments[i] != payments[j]
    requires forall i :: 0 <= i < |payments| ==> payments[i].Valid()
    modifies set i | 0 <= i < |payments| :: payments[i]
    ensures forall i :: 0 <= i < |payments| ==> payments[i].Valid()
    ensures forall i :: 0 <= i < |payments| ==>
      payments[i].Rec() == Visited(old(payments[i].Rec()), fetches[i], nows[i], grace,
                                   threshold(payments[i].coinType), latests[i], bulk)
  {
    ghost var olds := Recs(payments);
    var k := 0;
    while k < |payments|
      invariant 0 <= k <= |payments|
      invariant forall i :: 0 <= i < |payments| ==> payments[i].Valid()
      invariant forall i :: 0 <= i < k ==>
        payments[i].Rec() == Visited(olds[i], fetches[i], nows[i], grace,
                                     threshold(payments[i].coinType), latests[i], bulk)
      invariant forall i :: k <= i < |payments| ==> payments[i].Rec() == olds[i]
    {
      VisitAt(payments, k, fetches[k], nows[k], grace, threshold(payments[k].coinType), latests[k], bulk);
      k := k + 1;
    }
  }
}
