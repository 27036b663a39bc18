/**
 * A coin payment: the record's fields as a value (PaymentRec), the pure
 * effect of each of its operations on that value, and the Payment class whose
 * methods carry those effects out in place.
 */
module CoinPayments {
  import opened Wrappers
  import opened Transactions
  import opened Amounts
  import opened PaymentStates
  import opened Notifications

  datatype CoinType = Btc | Eth | Bch

  /**
   * Everything a payment instance holds. `transactions` are the rows stored
   * for it; `loaded` are the rows of its loaded `transactions` association,
   * which is what the instance's own readers (`currency_amount_paid`,
   * `transactions_confirmed?`) see: rows updated through a separate query
   * keep their old confirmations there. `coinConversion` is the stored
   * column; `cachedRate` is the instance's memoised rate lookup, which is
   * what the `coin_conversion` reader returns; `calls` are the payable hooks
   * run so far, in order.
   */
  datatype PaymentRec = PaymentRec(
    price: int,
    coinType: CoinType,
    subunit: Subunit,
    createdAt: Option<int>,
    payable: Payable,
    state: State,
    transactions: seq<Tx>,
    loaded: seq<Tx>,
    coinAmountDue: int,
    coinConversion: Rate,
    cachedRate: Option<Rate>,
    calls: seq<Call>)

  /** What `coin_conversion` answers: the memoised rate, or the lookup `latest` on first use. */
  function RateOf(r: PaymentRec, latest: Rate): Rate {
    r.cachedRate.GetOr(latest)
  }

  /** `expired_at`: creation time plus the grace period; none without a creation time. */
  function ExpiredAt(createdAt: Option<int>, grace: int): (t: Option<int>)
    ensures t.Some? <==> createdAt.Some?
    ensures t.Some? ==> t.value - grace == createdAt.value
  {
    match createdAt
    case None => None
    case Some(c) => Some(c + grace)
  }

  /** `expired_at&.past?` at clock reading `now`. */
  function IsExpired(createdAt: Option<int>, grace: int, now: int): (b: bool)
    ensures b <==> createdAt.Some? && createdAt.value + grace < now
    ensures createdAt.None? ==> !b
  {
    match ExpiredAt(createdAt, grace)
    case None => false
    case Some(t) => t < now
  }

  /**
   * `update_coin_amount_due(rate:)`: recomputes the subunits due from the
   * memoised rate and the loaded rows, and stores `rate` (by default that
   * memoised rate) as the column. Only these two fields and the memo change.
   */
  function WithCoinAmountDue(r: PaymentRec, latest: Rate, rate: Option<Rate>): (r': PaymentRec)
    ensures r' == r.(coinAmountDue := r'.coinAmountDue, coinConversion := r'.coinConversion,
                     cachedRate := r'.cachedRate)
    ensures r'.cachedRate == Some(RateOf(r, latest))
    ensures r'.coinConversion == rate.GetOr(RateOf(r, latest))
    ensures r'.coinAmountDue == CalculateCoinAmountDue(r.price, r.loaded, r.subunit, RateOf(r, latest))
  {
    var memo := RateOf(r, latest);
    r.(coinAmountDue := CalculateCoinAmountDue(r.price, r.loaded, r.subunit, memo),
       coinConversion := rate.GetOr(memo),
       cachedRate := Some(memo))
  }

  /**
   * Firing an event on a payment: a rejected event changes nothing; an
   * accepted one moves the state and runs the payable hooks of its
   * notification, and touches nothing else.
   */
  function Fired(r: PaymentRec, e: Event): (r': PaymentRec)
    ensures r' == r.(state := r'.state, calls := r'.calls)
    ensures Step(r.state, e).None? ==> r' == r
    ensures Step(r.state, e).Some? ==>
      r'.state == Step(r.state, e).value.target &&
      r'.calls == r.calls + Dispatch(r.payable, NoticeFor(e))
  {
    match Step(r.state, e)
    case None => r
    case Some(t) => r.(state := t.target, calls := r.calls + Dispatch(r.payable, t.notice))
  }

  /** Events fired one after another, each against the state the previous one left. */
  function FireAll(r: PaymentRec, es: seq<Event>): (r': PaymentRec)
    ensures r' == r.(state := r'.state, calls := r'.calls)
    ensures r'.state == Run(r.state, es).0
    ensures |r'.calls| >= |r.calls| && r'.calls[..|r.calls|] == r.calls
    decreases |es|
  {
    if |es| == 0 then r
    else
      var r1 := Fired(r, es[0]);
      var out := FireAll(r1, es[1..]);
      assert r1.calls[..|r.calls|] == r.calls;
      assert out.calls[..|r.calls|] == out.calls[..|r1.calls|][..|r.calls|];
      assert out.state == Run(r.state, es).0 by {
        assert r1.state == Next(r.state, es[0]);
      }
      out
  }

  /** A second recomputation with unchanged inputs changes nothing: the rate is memoised. */
  lemma UpdateCoinAmountDueIdempotent(r: PaymentRec, l1: Rate, l2: Rate)
    ensures WithCoinAmountDue(WithCoinAmountDue(r, l1, None), l2, None) == WithCoinAmountDue(r, l1, None)
  {
  }

  class Payment {
    const price: int
    const coinType: CoinType
    const subunit: Subunit
    const createdAt: Option<int>
    const payable: Payable
    var state: State
    var transactions: seq<Tx>
    var loaded: seq<Tx>
    var coinAmountDue: int
    var coinConversion: Rate
    var cachedRate: Option<Rate>
    var calls: seq<Call>

    function Rec(): PaymentRec
      reads this
    {
      PaymentRec(price, coinType, subunit, createdAt, payable, state, transactions, loaded,
                 coinAmountDue, coinConversion, cachedRate, calls)
    }

    /**
     * The unique index on `transaction_hash`, and a loaded association that
     * differs from the stored rows at most in confirmations.
     */
    ghost predicate Valid()
      reads this
    {
      NoDuplicateHashes(transactions) && SameRows(loaded, transactions)
    }

    /**
     * A payment as loaded from the store, its association holding the stored
     * rows: nothing memoised, no hook run yet.
     */
    constructor Load(price: int, coinType: CoinType, subunit: Subunit, createdAt: Option<int>,
                     payable: Payable, state: State, transactions: seq<Tx>,
                     coinAmountDue: int, coinConversion: Rate)
      requires NoDuplicateHashes(transactions)
      ensures Valid()
      ensures Rec() == PaymentRec(price, coinType, subunit, createdAt, payable, state, transactions,
                                  transactions, coinAmountDue, coinConversion, None, [])
    {
      this.price := price;
      this.coinType := coinType;
      this.subunit := subunit;
      this.createdAt := createdAt;
      this.payable := payable;
      this.state := state;
      this.transactions := transactions;
      this.loaded := transactions;
      this.coinAmountDue := coinAmountDue;
      this.coinConversion := coinConversion;
      this.cachedRate := None;
      this.calls := [];
    }

    /** `coin_conversion`: the first call memoises the rate lookup on the instance; later calls return it. */
    method CoinConversion(latest: Rate) returns (rate: Rate)
      modifies this`cachedRate
      ensures rate == RateOf(old(Rec()), latest)
      ensures Rec() == old(Rec()).(cachedRate := Some(rate))
    {
      if cachedRate.None? {
        cachedRate := Some(latest);
      }
      rate := cachedRate.value;
    }

    /** `update_coin_amount_due`; `rate` None stands for the default argument. */
    method UpdateCoinAmountDue(latest: Rate, rate: Option<Rate>)
      modifies this`coinAmountDue, this`coinConversion, this`cachedRate
      ensures Rec() == WithCoinAmountDue(old(Rec()), latest, rate)
    {
      var memo := CoinConversion(latest);
      var column := rate.GetOr(memo);
      coinAmountDue := CalculateCoinAmountDue(price, loaded, subunit, memo);
      coinConversion := column;
    }

    /** The event methods `pay`, `partially_pay`, `comp`, `confirm`, `expire`. */
    method Fire(e: Event) returns (fired: bool)
      modifies this`state, this`calls
      ensures fired == Step(old(state), e).Some?
      ensures Rec() == Fired(old(Rec()), e)
    {
      match Step(state, e)
      case None =>
        fired := false;
      case Some(t) =>
        state := t.target;
        calls := calls + Dispatch(payable, t.notice);
        fired := true;
    }
  }
}
