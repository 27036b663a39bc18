/**
 * Worked examples: one bitcoin payment at a rate of 100000 cents a coin
 * (1e8 satoshis a coin), priced at 1000 cents, taken through passes of the
 * processor.
 */
module Scenarios {
  import opened Wrappers
  import opened Transactions
  import opened Amounts
  import opened PaymentStates
  import opened Notifications
  import opened CoinPayments
  import opened PaymentProcessor

  const Satoshi: Subunit := 0.00000001
  const CentsPerCoin: Rate := 100000.0

  /** A payable with the `paid` and `confirmed` hooks and the generic one. */
  const Shop := Payable({"coin_payment_paid", "coin_payment_confirmed", "coin_payment_event"})

  /** The hooks each notification runs on the shop. */
  lemma ShopHooks()
    ensures Dispatch(Shop, NotifyPaid) == [Specific("coin_payment_paid"), Generic("paid")]
    ensures Dispatch(Shop, NotifyConfirmed) == [Specific("coin_payment_confirmed"), Generic("confirmed")]
    ensures Dispatch(Shop, NotifyPartiallyPaid) == [Generic("partially_paid")]
  {
    assert HookName(NotifyPaid) == "coin_payment_paid";
    assert HookName(NotifyConfirmed) == "coin_payment_confirmed";
    assert HookName(NotifyPartiallyPaid) == "coin_payment_partially_paid";
    assert HookName(NotifyPartiallyPaid) !in Shop.methods by {
      assert HookName(NotifyPartiallyPaid) != "coin_payment_paid" by {
        assert HookName(NotifyPartiallyPaid)[15] != "coin_payment_paid"[15];
      }
      assert |HookName(NotifyPartiallyPaid)| != |"coin_payment_confirmed"|;
      assert |HookName(NotifyPartiallyPaid)| != |"coin_payment_event"|;
    }
  }

  lemma ShopPaid(m: PaymentRec)
    requires m.payable == Shop && (m.state == Pending || m.state == PartialPayment)
    ensures Fired(m, Pay) == m.(state := PaidInFull, calls := m.calls + [Specific("coin_payment_paid"), Generic("paid")])
  {
    ShopHooks();
  }

  lemma ShopConfirmed(m: PaymentRec)
    requires m.payable == Shop && m.state == PaidInFull
    ensures Fired(m, Confirm) == m.(state := Confirmed,
      calls := m.calls + [Specific("coin_payment_confirmed"), Generic("confirmed")])
  {
    ShopHooks();
  }

  /** Settling a payment whose loaded rows cover the price and are deep enough: `pay`, then `confirm`. */
  lemma SettleFullyPaid(m: PaymentRec, threshold: int)
    requires CurrencyAmountPaid(m.loaded, m.subunit) >= m.price
    requires TransactionsConfirmed(m.loaded, threshold)
    ensures Settled(m, threshold) == Fired(Fired(m, Pay), Confirm)
  {
    FireAllTwo(m, Pay, Confirm);
  }

  /** A fresh invoice: nothing paid, 0.01 coin (1000000 satoshis) due. */
  function Invoice(createdAt: Option<int>): PaymentRec {
    PaymentRec(1000, Btc, Satoshi, createdAt, Shop, Pending, [], [], 1000000, CentsPerCoin, None, [])
  }

  lemma FullPaymentMerged()
    ensures Merged(Invoice(Some(0)), [FetchedTx("h1", 6, 1000000)], CentsPerCoin, false)
            == Invoice(Some(0)).(transactions := [Tx("h1", 6, 1000000, CentsPerCoin)],
                                 loaded := [Tx("h1", 6, 1000000, CentsPerCoin)], coinAmountDue := 0,
                                 cachedRate := Some(CentsPerCoin))
  {
    var f := FetchedTx("h1", 6, 1000000);
    var row := Tx("h1", 6, 1000000, CentsPerCoin);
    assert Stamped([f], CentsPerCoin) == [row];
    assert UpsertAll([], [row]) == [row] by {
      assert [row][..0] == [];
    }
    assert Inserted([], [row]) == [row] by {
      assert [row][..0] == [];
    }
    assert HasNewHash([], [f]);
    assert ExactCentsPaid([row], Satoshi) == 1000.0;
    assert CurrencyAmountPaid([row], Satoshi) == 1000;
  }

  lemma FullyPaidSettles()
    ensures var m := Invoice(Some(0)).(transactions := [Tx("h1", 6, 1000000, CentsPerCoin)],
                                       loaded := [Tx("h1", 6, 1000000, CentsPerCoin)], coinAmountDue := 0,
                                       cachedRate := Some(CentsPerCoin));
      Settled(m, 6) == m.(state := Confirmed, calls := [Specific("coin_payment_paid"), Generic("paid"),
                                                        Specific("coin_payment_confirmed"), Generic("confirmed")])
  {
    var row := Tx("h1", 6, 1000000, CentsPerCoin);
    var m := Invoice(Some(0)).(transactions := [row], loaded := [row], coinAmountDue := 0, cachedRate := Some(CentsPerCoin));
    assert ExactCentsPaid([row], Satoshi) == 1000.0;
    assert TransactionsConfirmed([row], 6);
    SettleFullyPaid(m, 6);
    ShopPaid(m);
    ShopConfirmed(Fired(m, Pay));
  }

  /** One fetched transaction paying the whole price and six confirmations deep settles the invoice in one pass. */
  lemma FullPaymentConfirmsInOnePass()
    ensures var out := Reconciled(Invoice(Some(0)), Ok([FetchedTx("h1", 6, 1000000)]), 10, 100, 6,
                                  CentsPerCoin, false);
      && out.state == Confirmed
      && out.transactions == [Tx("h1", 6, 1000000, CentsPerCoin)]
      && out.coinAmountDue == 0
      && out.calls == [Specific("coin_payment_paid"), Generic("paid"),
                       Specific("coin_payment_confirmed"), Generic("confirmed")]
  {
    FreshInvoiceWaits(Some(0));
    FullPaymentMerged();
    FullyPaidSettles();
  }

  lemma FreshInvoiceWaits(createdAt: Option<int>)
    ensures Settled(Invoice(createdAt), 6) == Invoice(createdAt)
  {
    assert CurrencyAmountPaid([], Satoshi) == 0;
    assert SettlementEvents(0, 1000, TransactionsConfirmed([], 6)) == [];
  }

  lemma HalfPaymentMerged()
    ensures Merged(Invoice(Some(0)), [FetchedTx("h1", 1, 500000)], CentsPerCoin, true)
            == Invoice(Some(0)).(transactions := [Tx("h1", 1, 500000, CentsPerCoin)],
                                 loaded := [Tx("h1", 1, 500000, CentsPerCoin)], coinAmountDue := 500000,
                                 cachedRate := Some(CentsPerCoin))
  {
    var f := FetchedTx("h1", 1, 500000);
    var row := Tx("h1", 1, 500000, CentsPerCoin);
    assert Stamped([f], CentsPerCoin) == [row];
    assert UpsertAll([], [row]) == [row] by {
      assert [row][..0] == [];
    }
    assert ExactCentsPaid([row], Satoshi) == 500.0;
    assert CurrencyAmountPaid([row], Satoshi) == 500;
    assert CoinsFor(500, CentsPerCoin, Satoshi) == 500000 by {
      assert MainToSubunit(500 as real / CentsPerCoin, Satoshi) == 500000.0;
    }
  }

  lemma HalfPaidSettles()
    ensures var m := Invoice(Some(0)).(transactions := [Tx("h1", 1, 500000, CentsPerCoin)],
                                       loaded := [Tx("h1", 1, 500000, CentsPerCoin)], coinAmountDue := 500000,
                                       cachedRate := Some(CentsPerCoin));
      Settled(m, 6) == m.(state := PartialPayment, calls := [Generic("partially_paid")])
  {
    var row := Tx("h1", 1, 500000, CentsPerCoin);
    var m := Invoice(Some(0)).(transactions := [row], loaded := [row], coinAmountDue := 500000,
                               cachedRate := Some(CentsPerCoin));
    assert ExactCentsPaid([row], Satoshi) == 500.0;
    assert CurrencyAmountPaid([row], Satoshi) == 500;
    FireAllOne(m, PartiallyPay);
    ShopHooks();
  }

  /** Half the price paid: the invoice becomes a partial payment and half the coins stay due. */
  lemma HalfPaymentIsPartial()
    ensures var out := Reconciled(Invoice(Some(0)), Ok([FetchedTx("h1", 1, 500000)]), 10, 100, 6,
                                  CentsPerCoin, true);
      && out.state == PartialPayment
      && out.transactions == [Tx("h1", 1, 500000, CentsPerCoin)]
      && out.coinAmountDue == 500000
      && out.calls == [Generic("partially_paid")]
  {
    FreshInvoiceWaits(Some(0));
    HalfPaymentMerged();
    HalfPaidSettles();
  }

  /** The invoice once paid in full by one transaction that is only one confirmation deep. */
  function PaidShallow(): PaymentRec {
    Invoice(Some(0)).(state := PaidInFull, transactions := [Tx("h1", 1, 1000000, CentsPerCoin)],
                      loaded := [Tx("h1", 1, 1000000, CentsPerCoin)], coinAmountDue := 0)
  }

  lemma PaidShallowWaits()
    ensures Settled(PaidShallow(), 6) == PaidShallow()
  {
    var r := PaidShallow();
    var old1 := Tx("h1", 1, 1000000, CentsPerCoin);
    assert ExactCentsPaid([old1], Satoshi) == 1000.0;
    assert !TransactionsConfirmed([old1], 6);
    FireAllTwo(r, Pay, Confirm);
  }

  /**
   * On the many-insert path the refetched row is updated in the store by a
   * query of its own: the loaded copy keeps its one confirmation.
   */
  lemma RefetchUpdatesRow()
    ensures Merged(PaidShallow(), [FetchedTx("h1", 6, 1000000)], CentsPerCoin, false)
            == PaidShallow().(transactions := [Tx("h1", 6, 1000000, CentsPerCoin)])
  {
    var old1 := Tx("h1", 1, 1000000, CentsPerCoin);
    var f := FetchedTx("h1", 6, 1000000);
    var row := Tx("h1", 6, 1000000, CentsPerCoin);
    assert Find([old1], "h1") == Some(0);
    assert Upsert([old1], row) == [row];
    assert Stamped([f], CentsPerCoin) == [row];
    assert UpsertAll([old1], [row]) == [row] by {
      assert [row][..0] == [];
    }
    assert old1.hash in HashSet([old1]);
    assert Inserted([old1], [row]) == [] by {
      assert [row][..0] == [];
    }
    assert [old1] + [] == [old1];
    assert !HasNewHash([old1], [f]);
  }

  /** On the bulk path the upsert is followed by `reload`: the loaded rows are the stored ones. */
  lemma BulkRefetchReloads()
    ensures Merged(PaidShallow(), [FetchedTx("h1", 6, 1000000)], CentsPerCoin, true)
            == PaidShallow().(transactions := [Tx("h1", 6, 1000000, CentsPerCoin)],
                              loaded := [Tx("h1", 6, 1000000, CentsPerCoin)], cachedRate := Some(CentsPerCoin))
  {
    var old1 := Tx("h1", 1, 1000000, CentsPerCoin);
    var f := FetchedTx("h1", 6, 1000000);
    var row := Tx("h1", 6, 1000000, CentsPerCoin);
    assert Find([old1], "h1") == Some(0);
    assert Upsert([old1], row) == [row];
    assert Stamped([f], CentsPerCoin) == [row];
    assert UpsertAll([old1], [row]) == [row] by {
      assert [row][..0] == [];
    }
    assert ExactCentsPaid([row], Satoshi) == 1000.0;
    assert CurrencyAmountPaid([row], Satoshi) == 1000;
  }

  /** A payment paid in full whose loaded row is six deep is confirmed, and only the confirmed hooks run. */
  lemma DeepPaidConfirms(m: PaymentRec)
    requires m.state == PaidInFull && m.price == 1000 && m.subunit == Satoshi && m.payable == Shop
    requires m.loaded == [Tx("h1", 6, 1000000, CentsPerCoin)]
    ensures Settled(m, 6) == m.(state := Confirmed,
                                calls := m.calls + [Specific("coin_payment_confirmed"), Generic("confirmed")])
  {
    var row := Tx("h1", 6, 1000000, CentsPerCoin);
    assert ExactCentsPaid([row], Satoshi) == 1000.0;
    assert TransactionsConfirmed([row], 6);
    SettleFullyPaid(m, 6);
    assert Fired(m, Pay) == m;
    ShopConfirmed(m);
  }

  /**
   * A payment paid in full but not deep enough is confirmed by the bulk pass
   * that refetches its transaction with more confirmations; the ledger keeps
   * one row, and only the confirmed hooks run.
   */
  lemma RefetchConfirms()
    ensures var out := Reconciled(PaidShallow(), Ok([FetchedTx("h1", 6, 1000000)]), 10, 100, 6, CentsPerCoin, true);
      && out.state == Confirmed
      && out.transactions == [Tx("h1", 6, 1000000, CentsPerCoin)]
      && out.coinAmountDue == 0
      && out.calls == [Specific("coin_payment_confirmed"), Generic("confirmed")]
  {
    PaidShallowWaits();
    BulkRefetchReloads();
    var row := Tx("h1", 6, 1000000, CentsPerCoin);
    DeepPaidConfirms(PaidShallow().(transactions := [row], loaded := [row], cachedRate := Some(CentsPerCoin)));
    PassIsPostCheck(PaidShallow(), [FetchedTx("h1", 6, 1000000)], 10, 100, 6, CentsPerCoin, true);
  }

  lemma StaleRowWaits()
    ensures var m := PaidShallow().(transactions := [Tx("h1", 6, 1000000, CentsPerCoin)]);
      Settled(m, 6) == m
  {
    var old1 := Tx("h1", 1, 1000000, CentsPerCoin);
    var m := PaidShallow().(transactions := [Tx("h1", 6, 1000000, CentsPerCoin)]);
    assert ExactCentsPaid([old1], Satoshi) == 1000.0;
    assert !TransactionsConfirmed([old1], 6);
    FireAllOne(m, Pay);
  }

  /**
   * The same refetch on the many-insert path leaves the payment paid in full:
   * the store holds six confirmations, but the post-check reads the one the
   * loaded copy kept. The pass that reloads first confirms it.
   */
  lemma ManyInsertRefetchWaits()
    ensures var out := Reconciled(PaidShallow(), Ok([FetchedTx("h1", 6, 1000000)]), 10, 100, 6, CentsPerCoin, false);
      && out.state == PaidInFull
      && out.transactions == [Tx("h1", 6, 1000000, CentsPerCoin)]
      && out.loaded == [Tx("h1", 1, 1000000, CentsPerCoin)]
      && out.calls == []
    ensures ReconciledReloading(PaidShallow(), Ok([FetchedTx("h1", 6, 1000000)]), 10, 100, 6, CentsPerCoin, false).state
            == Confirmed
  {
    PaidShallowWaits();
    RefetchUpdatesRow();
    StaleRowWaits();
    var fs := [FetchedTx("h1", 6, 1000000)];
    var row := Tx("h1", 6, 1000000, CentsPerCoin);
    PassIsPostCheck(PaidShallow(), fs, 10, 100, 6, CentsPerCoin, false);
    assert Reloaded(PaidShallow()) == PaidShallow();
    assert Reloaded(PaidShallow().(transactions := [row])) == PaidShallow().(transactions := [row], loaded := [row]);
    DeepPaidConfirms(PaidShallow().(transactions := [row], loaded := [row]));
    ReloadingPassIsPostCheck(PaidShallow(), fs, 10, 100, 6, CentsPerCoin, false);
  }

  /** Half the price in one stored transaction, six confirmations deep, already a partial payment. */
  function HalfPaidDeep(): PaymentRec {
    Invoice(Some(0)).(state := PartialPayment, transactions := [Tx("h1", 6, 500000, CentsPerCoin)],
                      loaded := [Tx("h1", 6, 500000, CentsPerCoin)], coinAmountDue := 500000)
  }

  /** The refetch that reports the stored transaction at two confirmations and a new one paying the rest at six. */
  function ReorgFetch(): seq<FetchedTx> {
    [FetchedTx("h1", 2, 500000), FetchedTx("h2", 6, 500000)]
  }

  lemma HalfPaidDeepWaits()
    ensures Settled(HalfPaidDeep(), 6) == HalfPaidDeep()
  {
    var r := HalfPaidDeep();
    var a6 := Tx("h1", 6, 500000, CentsPerCoin);
    assert ExactCentsPaid([a6], Satoshi) == 500.0;
    assert CurrencyAmountPaid([a6], Satoshi) == 500;
    assert SettlementEvents(500, 1000, TransactionsConfirmed([a6], 6)) == [PartiallyPay];
    FireAllOne(r, PartiallyPay);
    assert Step(PartialPayment, PartiallyPay) == None;
  }

  /**
   * The many-insert merge of that fetch: the store holds h1 at two
   * confirmations and h2, while the loaded copy holds h1 at six and the
   * created h2.
   */
  lemma ReorgMerged()
    ensures var m := Merged(HalfPaidDeep(), ReorgFetch(), CentsPerCoin, false);
      && m.state == PartialPayment
      && m.transactions == [Tx("h1", 2, 500000, CentsPerCoin), Tx("h2", 6, 500000, CentsPerCoin)]
      && m.loaded == [Tx("h1", 6, 500000, CentsPerCoin), Tx("h2", 6, 500000, CentsPerCoin)]
      && m.price == 1000 && m.subunit == Satoshi && m.payable == Shop && m.calls == []
  {
    var a6 := Tx("h1", 6, 500000, CentsPerCoin);
    var a2 := Tx("h1", 2, 500000, CentsPerCoin);
    var b6 := Tx("h2", 6, 500000, CentsPerCoin);
    var rows := Stamped(ReorgFetch(), CentsPerCoin);
    assert rows == [a2, b6];
    assert rows[..1] == [a2];
    assert [a2][..0] == [];
    assert Find([a6], "h1") == Some(0);
    assert UpsertAll([a6], [a2]) == [a2];
    assert a6.hash in HashSet([a6]);
    assert Inserted([a6], [a2]) == [];
    assert b6.hash !in HashSet([a2]);
    assert Find([a2], "h2") == None;
    assert UpsertAll([a6], rows) == [a2, b6];
    assert Inserted([a6], rows) == [b6];
    assert HasNewHash([a6], ReorgFetch()) by {
      assert ReorgFetch()[1].hash !in HashSet([a6]);
    }
    MergedFrame(HalfPaidDeep(), ReorgFetch(), CentsPerCoin, false);
  }

  /**
   * The pass as written confirms that payment although its stored h1 is two
   * confirmations deep, below the threshold of six: the post-check reads the
   * loaded h1 at six. The pass that reloads first leaves it paid in full.
   */
  lemma StaleConfirmationsConfirm()
    ensures var out := Reconciled(HalfPaidDeep(), Ok(ReorgFetch()), 10, 100, 6, CentsPerCoin, false);
      && out.state == Confirmed
      && out.transactions == [Tx("h1", 2, 500000, CentsPerCoin), Tx("h2", 6, 500000, CentsPerCoin)]
      && !TransactionsConfirmed(out.transactions, 6)
    ensures ReconciledReloading(HalfPaidDeep(), Ok(ReorgFetch()), 10, 100, 6, CentsPerCoin, false).state
            == PaidInFull
  {
    HalfPaidDeepWaits();
    ReorgMerged();
    var m := Merged(HalfPaidDeep(), ReorgFetch(), CentsPerCoin, false);
    StaleLoadedConfirms(m);
    PassIsPostCheck(HalfPaidDeep(), ReorgFetch(), 10, 100, 6, CentsPerCoin, false);
    assert !TransactionsConfirmed([Tx("h1", 2, 500000, CentsPerCoin), Tx("h2", 6, 500000, CentsPerCoin)], 6);
    assert Reloaded(HalfPaidDeep()) == HalfPaidDeep();
    StoredRowsOnlyPay(Reloaded(m));
    ReloadingPassIsPostCheck(HalfPaidDeep(), ReorgFetch(), 10, 100, 6, CentsPerCoin, false);
  }

  /** When the pre-check changes nothing and the post-check leaves the payment past pending, the pass is the post-check. */
  lemma PassIsPostCheck(r: PaymentRec, fs: seq<FetchedTx>, now: int, grace: int, threshold: int,
                        latest: Rate, bulk: bool)
    requires r.state != Confirmed && Settled(r, threshold) == r
    requires Settled(Merged(r, fs, latest, bulk), threshold).state != Pending
    ensures Reconciled(r, Ok(fs), now, grace, threshold, latest, bulk) == Settled(Merged(r, fs, latest, bulk), threshold)
  {
  }

  lemma ReloadingPassIsPostCheck(r: PaymentRec, fs: seq<FetchedTx>, now: int, grace: int, threshold: int,
                                 latest: Rate, bulk: bool)
    requires r.state != Confirmed && Reloaded(r) == r && Settled(r, threshold) == r
    requires Settled(Reloaded(Merged(r, fs, latest, bulk)), threshold).state != Pending
    ensures ReconciledReloading(r, Ok(fs), now, grace, threshold, latest, bulk) ==
            Settled(Reloaded(Merged(r, fs, latest, bulk)), threshold)
  {
  }

  /** Settling on the loaded rows h1 at six and h2 at six: paid, then confirmed. */
  lemma StaleLoadedConfirms(m: PaymentRec)
    requires m.state == PartialPayment && m.price == 1000 && m.subunit == Satoshi && m.payable == Shop
    requires m.loaded == [Tx("h1", 6, 500000, CentsPerCoin), Tx("h2", 6, 500000, CentsPerCoin)]
    ensures Settled(m, 6).state == Confirmed && Settled(m, 6).transactions == m.transactions
  {
    var a6 := Tx("h1", 6, 500000, CentsPerCoin);
    var b6 := Tx("h2", 6, 500000, CentsPerCoin);
    assert ExactCentsPaid([a6, b6], Satoshi) == 1000.0 by {
      assert [a6, b6][..1] == [a6];
      assert ExactCentsPaid([a6], Satoshi) == 500.0;
      assert TxCents(b6, Satoshi) == 500.0;
    }
    assert CurrencyAmountPaid([a6, b6], Satoshi) == 1000;
    assert TransactionsConfirmed([a6, b6], 6);
    SettleFullyPaid(m, 6);
    ShopPaid(m);
    ShopConfirmed(Fired(m, Pay));
  }

  /** Settling on the stored rows h1 at two and h2 at six: paid, and not confirmed. */
  lemma StoredRowsOnlyPay(n: PaymentRec)
    requires n.state == PartialPayment && n.price == 1000 && n.subunit == Satoshi
    requires n.loaded == [Tx("h1", 2, 500000, CentsPerCoin), Tx("h2", 6, 500000, CentsPerCoin)]
    ensures Settled(n, 6).state == PaidInFull
  {
    var a2 := Tx("h1", 2, 500000, CentsPerCoin);
    var b6 := Tx("h2", 6, 500000, CentsPerCoin);
    assert ExactCentsPaid([a2, b6], Satoshi) == 1000.0 by {
      assert [a2, b6][..1] == [a2];
      assert ExactCentsPaid([a2], Satoshi) == 500.0;
      assert TxCents(b6, Satoshi) == 500.0;
    }
    assert CurrencyAmountPaid([a2, b6], Satoshi) == 1000;
    assert !TransactionsConfirmed([a2, b6], 6);
    assert SettlementEvents(1000, 1000, false) == [Pay];
    FireAllTwo(n, Pay, Confirm);
  }

  /** A transaction fetched twice in one list is stored once, with the later confirmations. */
  lemma RepeatedHashStoredOnce()
    ensures ManyInserted(Invoice(Some(0)), [FetchedTx("h1", 1, 400000), FetchedTx("h1", 3, 400000)],
                         CentsPerCoin).transactions == [Tx("h1", 3, 400000, CentsPerCoin)]
  {
    var a := Tx("h1", 1, 400000, CentsPerCoin);
    var b := Tx("h1", 3, 400000, CentsPerCoin);
    var rows := Stamped([FetchedTx("h1", 1, 400000), FetchedTx("h1", 3, 400000)], CentsPerCoin);
    assert rows == [a, b];
    assert rows[..1] == [a];
    assert [a][..0] == [];
    assert UpsertAll([], [a]) == [a];
    assert Find([a], "h1") == Some(0);
    assert UpsertAll([], rows) == Upsert([a], b);
  }

  /** An unpaid invoice expires on the first pass after its grace period, and not before. */
  lemma UnpaidInvoiceExpires()
    ensures Reconciled(Invoice(Some(0)), Ok([]), 101, 100, 6, CentsPerCoin, false).state == Expired
    ensures Reconciled(Invoice(Some(0)), Ok([]), 100, 100, 6, CentsPerCoin, false).state == Pending
    ensures Reconciled(Invoice(None), Ok([]), 1000000, 100, 6, CentsPerCoin, false).state == Pending
  {
    EmptyFetchChecksExpiry(Some(0), 101);
    EmptyFetchChecksExpiry(Some(0), 100);
    EmptyFetchChecksExpiry(None, 1000000);
    ExpireFires(Invoice(Some(0)));
  }

  /** A pass that fetches nothing for a fresh invoice only checks its expiry. */
  lemma EmptyFetchChecksExpiry(createdAt: Option<int>, now: int)
    ensures Reconciled(Invoice(createdAt), Ok([]), now, 100, 6, CentsPerCoin, false) ==
            ExpiryChecked(Invoice(createdAt), now, 100)
  {
    var r := Invoice(createdAt);
    FreshInvoiceWaits(createdAt);
    assert Stamped([], CentsPerCoin) == [];
    assert !HasNewHash([], []);
    assert Inserted([], []) == [];
    assert r.loaded + [] == r.loaded;
    assert Merged(r, [], CentsPerCoin, false) == r;
  }

  /** Overpaying makes the amount due negative: it is not clamped at zero. */
  lemma OverpaidDueIsNegative()
    ensures CalculateCoinAmountDue(1000, [Tx("h1", 0, 2000000, CentsPerCoin)], Satoshi, CentsPerCoin) == -1000000
  {
    var row := Tx("h1", 0, 2000000, CentsPerCoin);
    assert ExactCentsPaid([row], Satoshi) == 2000.0;
    assert CurrencyAmountDue(1000, [row], Satoshi) == -1000;
    assert MainToSubunit(-1000 as real / CentsPerCoin, Satoshi) == -1000000.0;
  }

  /** `comp` runs the `paid` hooks, like `pay`. */
  lemma CompNotifiesPaid()
    ensures Fired(Invoice(None), Comp).state == Comped
    ensures Fired(Invoice(None), Comp).calls == [Specific("coin_payment_paid"), Generic("paid")]
  {
    ShopHooks();
  }
}
