/**
 * The amount engine: fiat cents paid and due, and the coin subunits still
 * owed, in exact real arithmetic.
 */
module Amounts {
  import opened Transactions

  /**
   * The worth of one coin subunit in main units (a satoshi is 1e-8 bitcoin):
   * the positive constant per coin type behind the adapter's
   * `convert_subunit_to_main` (a product with it) and
   * `convert_main_to_subunit` (a quotient by it).
   */
  type Subunit = u: real | u > 0.0 witness 1.0

  function SubunitToMain(v: int, subunit: Subunit): real {
    v as real * subunit
  }

  function MainToSubunit(x: real, subunit: Subunit): real {
    x / subunit
  }

  /** The two conversions are inverse to each other. */
  lemma ConversionRoundTrip(v: int, x: real, subunit: Subunit)
    ensures MainToSubunit(SubunitToMain(v, subunit), subunit) == v as real
    ensures SubunitToMain(1, subunit) * MainToSubunit(x, subunit) == x
  {
  }

  /** Ruby's `ceil`: the least integer not below x. */
  function Ceil(x: real): (r: int)
    ensures x <= r as real < x + 1.0
  {
    -((-x).Floor)
  }

  /** Ruby's `round(0)`: to the nearest integer, a tie away from zero. */
  function RoundHalfUp(x: real): (r: int)
    ensures x >= 0.0 ==> r as real - 0.5 <= x < r as real + 0.5
    ensures x < 0.0 ==> r as real - 0.5 < x <= r as real + 0.5
  {
    if x >= 0.0 then (x + 0.5).Floor else -((0.5 - x).Floor)
  }

  /** One row's fiat value, at the rate snapshot the row itself carries. */
  function TxCents(t: Tx, subunit: Subunit): real {
    SubunitToMain(t.estimatedValue, subunit) * t.coinConversion
  }

  /** The unrounded sum `transactions.inject(0) { |sum, tx| sum + ... }`. */
  function ExactCentsPaid(txs: seq<Tx>, subunit: Subunit): real
    decreases |txs|
  {
    if |txs| == 0 then 0.0
    else ExactCentsPaid(txs[..|txs| - 1], subunit) + TxCents(txs[|txs| - 1], subunit)
  }

  /**
   * `currency_amount_paid`: the ledger's fiat value, rounded once, on the
   * total; so it is never more than half a cent from the exact sum, however
   * many rows there are.
   */
  function CurrencyAmountPaid(txs: seq<Tx>, subunit: Subunit): (r: int)
    ensures |txs| == 0 ==> r == 0
    ensures r as real - 0.5 <= ExactCentsPaid(txs, subunit) <= r as real + 0.5
  {
    RoundHalfUp(ExactCentsPaid(txs, subunit))
  }

  /** `currency_amount_due`; zero or less exactly when the price is covered. */
  function CurrencyAmountDue(price: int, txs: seq<Tx>, subunit: Subunit): (r: int)
    ensures r <= 0 <==> CurrencyAmountPaid(txs, subunit) >= price
    ensures r < 0 <==> CurrencyAmountPaid(txs, subunit) > price
  {
    price - CurrencyAmountPaid(txs, subunit)
  }

  lemma MulMonotone(x: real, y: real, k: real)
    requires k > 0.0
    ensures x <= y ==> x * k <= y * k
    ensures x < y ==> x * k < y * k
  {
  }

  /** From subunits back to fiat: a bound on the subunit amount is a bound on its value. */
  lemma ToFiat(a: real, q: real, rate: Rate, subunit: Subunit)
    ensures q / subunit <= a ==> q * rate <= a * subunit * rate
    ensures a < q / subunit ==> a * subunit * rate < q * rate
  {
    assert (q / subunit) * subunit == q;
    MulMonotone(q / subunit, a, subunit);
    MulMonotone(a, q / subunit, subunit);
    MulMonotone(q, a * subunit, rate);
    MulMonotone(a * subunit, q, rate);
  }

  /** Rounding the subunits up keeps their fiat value at or above `due`, within one subunit. */
  lemma CeilCovers(due: int, rate: Rate, subunit: Subunit)
    ensures var r := Ceil(MainToSubunit(due as real / rate, subunit));
      SubunitToMain(r, subunit) * rate >= due as real && SubunitToMain(r - 1, subunit) * rate < due as real
  {
    var q := due as real / rate;
    var r := Ceil(MainToSubunit(q, subunit));
    assert q * rate == due as real;
    ToFiat(r as real, q, rate, subunit);
    ToFiat((r - 1) as real, q, rate, subunit);
  }

  /** Rounding the subunits up keeps the sign of `due`. */
  lemma CeilSign(due: int, rate: Rate, subunit: Subunit)
    ensures var r := Ceil(MainToSubunit(due as real / rate, subunit));
      (due == 0 ==> r == 0) && (due > 0 ==> r > 0) && (due < 0 ==> r <= 0)
  {
    var q := due as real / rate;
    assert q / subunit == q * (1.0 / subunit);
    MulMonotone(0.0, q, 1.0 / subunit);
    MulMonotone(q, 0.0, 1.0 / subunit);
  }

  /**
   * The coin subunits that pay `due` fiat cents at `rate`, rounded up: the
   * exact amount or at most one subunit more, with the sign of `due`. They
   * are not clamped at zero: an overpayment gives a negative amount.
   */
  function CoinsFor(due: int, rate: Rate, subunit: Subunit): (r: int)
    ensures MainToSubunit(due as real / rate, subunit) <= r as real < MainToSubunit(due as real / rate, subunit) + 1.0
    ensures due == 0 ==> r == 0
    ensures due > 0 ==> r > 0
    ensures due < 0 ==> r <= 0
  {
    CeilSign(due, rate, subunit);
    Ceil(MainToSubunit(due as real / rate, subunit))
  }

  /** Paid at `rate`, those subunits cover `due`, and one subunit fewer would not. */
  lemma CoinsForCovers(due: int, rate: Rate, subunit: Subunit)
    ensures SubunitToMain(CoinsFor(due, rate, subunit), subunit) * rate >= due as real
    ensures SubunitToMain(CoinsFor(due, rate, subunit) - 1, subunit) * rate < due as real
  {
    CeilCovers(due, rate, subunit);
  }

  /**
   * `calculate_coin_amount_due`: the subunits still owed, at `rate`, for the
   * part of the price the ledger does not cover, rounded up; zero or less
   * exactly once the price is covered.
   */
  function CalculateCoinAmountDue(price: int, txs: seq<Tx>, subunit: Subunit, rate: Rate): (r: int)
    ensures var due := CurrencyAmountDue(price, txs, subunit) as real / rate;
      MainToSubunit(due, subunit) <= r as real < MainToSubunit(due, subunit) + 1.0
    ensures r <= 0 <==> CurrencyAmountPaid(txs, subunit) >= price
  {
    CoinsFor(CurrencyAmountDue(price, txs, subunit), rate, subunit)
  }

  /** Paid at `rate`, the amount due settles what the ledger leaves unpaid, and one subunit less would not. */
  lemma CalculateCoinAmountDueCovers(price: int, txs: seq<Tx>, subunit: Subunit, rate: Rate)
    ensures var r := CalculateCoinAmountDue(price, txs, subunit, rate);
      SubunitToMain(r, subunit) * rate >= CurrencyAmountDue(price, txs, subunit) as real &&
      SubunitToMain(r - 1, subunit) * rate < CurrencyAmountDue(price, txs, subunit) as real
  {
    CoinsForCovers(CurrencyAmountDue(price, txs, subunit), rate, subunit);
  }

  /** `transactions_confirmed?`: every row has at least `threshold` confirmations. */
  function TransactionsConfirmed(txs: seq<Tx>, threshold: int): (b: bool)
    ensures b <==> forall i :: 0 <= i < |txs| ==> txs[i].confirmations >= threshold
  {
    |txs| == 0 || (txs[0].confirmations >= threshold && TransactionsConfirmed(txs[1..], threshold))
  }

  /** Two ledgers whose rows agree in everything the amounts read. */
  predicate SameValues(a: seq<Tx>, b: seq<Tx>) {
    |a| == |b| &&
    forall i :: 0 <= i < |a| ==>
      a[i].estimatedValue == b[i].estimatedValue && a[i].coinConversion == b[i].coinConversion
  }

  /** Confirmations never enter the fiat value of a ledger. */
  lemma {:induction false} ExactCentsIgnoresConfirmations(a: seq<Tx>, b: seq<Tx>, subunit: Subunit)
    requires SameValues(a, b)
    ensures ExactCentsPaid(a, subunit) == ExactCentsPaid(b, subunit)
    ensures CurrencyAmountPaid(a, subunit) == CurrencyAmountPaid(b, subunit)
    decreases |a|
  {
    if |a| > 0 {
      var n := |a|;
      assert SameValues(a[..n - 1], b[..n - 1]);
      ExactCentsIgnoresConfirmations(a[..n - 1], b[..n - 1], subunit);
      assert TxCents(a[n - 1], subunit) == TxCents(b[n - 1], subunit);
    }
  }

  /** A copy of the ledger that differs from it only in confirmations pays the same. */
  lemma SameRowsSamePaid(a: seq<Tx>, b: seq<Tx>, subunit: Subunit)
    requires SameRows(a, b)
    ensures CurrencyAmountPaid(a, subunit) == CurrencyAmountPaid(b, subunit)
  {
    assert SameValues(a, b) by {
      forall i | 0 <= i < |a|
        ensures a[i].estimatedValue == b[i].estimatedValue && a[i].coinConversion == b[i].coinConversion
      {
        assert SansConfirmations(a)[i] == SansConfirmations(b)[i];
      }
    }
    ExactCentsIgnoresConfirmations(a, b, subunit);
  }

  /** A ledger of non-negative values is worth a non-negative number of cents. */
  lemma {:induction false} CurrencyAmountPaidNonNegative(txs: seq<Tx>, subunit: Subunit)
    requires forall i :: 0 <= i < |txs| ==> txs[i].estimatedValue >= 0
    ensures ExactCentsPaid(txs, subunit) >= 0.0
    ensures CurrencyAmountPaid(txs, subunit) >= 0
    decreases |txs|
  {
    if |txs| > 0 {
      var n := |txs|;
      CurrencyAmountPaidNonNegative(txs[..n - 1], subunit);
      var t := txs[n - 1];
      assert SubunitToMain(t.estimatedValue, subunit) >= 0.0;
      assert TxCents(t, subunit) >= 0.0;
    }
  }
}
