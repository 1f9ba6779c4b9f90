/**
 * The ledger figures of the customer detail page (`web/src/routes/customers.tsx`):
 * per transaction the paid total and the remaining amount, and the split of the customer's
 * signed outstanding balance into "Should Receive" and "You Owe". Amounts are exact reals.
 */
module Ledger {

  import opened Wrappers
  import Sums

  /** One embedded `payments:payments(amount)` row. */
  datatype PaymentAmount = PaymentAmount(amount: real)

  /** A transaction row as the detail page reads it. */
  datatype Transaction = Transaction(
    id: string, title: string, kind: string, amount: real,
    payments: Option<seq<PaymentAmount>>)

  function AmountOf(p: PaymentAmount): real {
    p.amount
  }

  /** `t.payments?.reduce((sum, p) => sum + Number(p.amount), 0) || 0`. */
  function Paid(payments: Option<seq<PaymentAmount>>): (paid: real)
    ensures payments.None? || payments == Some([]) ==> paid == 0.0
  {
    match payments
    case None => 0.0
    case Some(ps) => Sums.SumBy(ps, AmountOf)
  }

  /** `Number(t.amount) - paid`, not clamped: an overpaid transaction goes negative. */
  function Remaining(t: Transaction): (r: real)
    ensures r + Paid(t.payments) == t.amount
    ensures r < 0.0 <==> Paid(t.payments) > t.amount
  {
    t.amount - Paid(t.payments)
  }

  /** The remaining cell is drawn in red exactly when something is still owed on it. */
  predicate Highlighted(t: Transaction) {
    Remaining(t) > 0.0
  }

  lemma HighlightedIffUnderpaid(t: Transaction)
    ensures Highlighted(t) <==> Paid(t.payments) < t.amount
  {
  }

  /** The paid total does not depend on the order in which the store returns payments. */
  lemma PaidOrderIndependent(a: seq<PaymentAmount>, b: seq<PaymentAmount>)
    requires multiset(a) == multiset(b)
    ensures Paid(Some(a)) == Paid(Some(b))
  {
    Sums.SumByPermutation(a, b, AmountOf);
  }

  /** One more payment lowers the remaining amount by exactly its amount. */
  lemma RemainingAfterPayment(t: Transaction, ps: seq<PaymentAmount>, p: PaymentAmount)
    requires t.payments == Some(ps)
    ensures Remaining(t.(payments := Some(ps + [p]))) == Remaining(t) - p.amount
  {
    Sums.SumBySnoc(ps, p, AmountOf);
  }

  /** With positive payments the paid total is never negative. */
  lemma PaidNonNegative(ps: seq<PaymentAmount>)
    requires forall i :: 0 <= i < |ps| ==> ps[i].amount > 0.0
    ensures Paid(Some(ps)) >= 0.0
  {
    Sums.SumByNonNegative(ps, AmountOf);
  }

  lemma UnpaidRemainsAmount(t: Transaction)
    requires t.payments.None? || t.payments == Some([])
    ensures Remaining(t) == t.amount && (Highlighted(t) <==> t.amount > 0.0)
  {
  }

  /** `{ outstanding }` from the store's balance view; the column itself may be null. */
  datatype BalanceRow = BalanceRow(outstanding: Option<real>)

  /** `bal?.outstanding ?? 0`: a missing row or a null column reads as 0. */
  function BalanceOf(row: Option<BalanceRow>): (b: real)
    ensures row.None? || row.value.outstanding.None? ==> b == 0.0
    ensures row.Some? && row.value.outstanding.Some? ==> b == row.value.outstanding.value
  {
    match row
    case None => 0.0
    case Some(r) => r.outstanding.GetOr(0.0)
  }

  /** `Math.abs`. */
  function Abs(x: real): (r: real)
    ensures r >= 0.0 && (r == x || r == -x)
  {
    if x < 0.0 then -x else x
  }

  datatype Split = Split(receive: real, owe: real)

  /**
   * `receive = balance && balance > 0 ? balance : 0` and
   * `owe = balance && balance < 0 ? Math.abs(balance) : 0`.
   */
  function SplitBalance(balance: real): (s: Split)
    ensures s.receive >= 0.0 && s.owe >= 0.0
    ensures s.receive == 0.0 || s.owe == 0.0
    ensures s.receive - s.owe == balance
  {
    var receive := if balance != 0.0 && balance > 0.0 then balance else 0.0;
    var owe := if balance != 0.0 && balance < 0.0 then Abs(balance) else 0.0;
    Split(receive, owe)
  }

  /** The split is the only pair of non-negative figures, one of them zero, that reconstructs the balance. */
  lemma SplitUnique(balance: real, s: Split)
    requires s.receive >= 0.0 && s.owe >= 0.0 && (s.receive == 0.0 || s.owe == 0.0)
    requires s.receive - s.owe == balance
    ensures s == SplitBalance(balance)
  {
  }

  lemma MissingBalanceShowsNothing(row: Option<BalanceRow>)
    requires row.None? || row.value.outstanding.None?
    ensures SplitBalance(BalanceOf(row)) == Split(0.0, 0.0)
  {
  }

  /** A transaction of 100 with payments 30 and 20 has 50 paid and 50 remaining. */
  lemma ExamplePartlyPaid()
    ensures var t := Transaction("t", "line", "phoneline_charging", 100.0,
                                 Some([PaymentAmount(30.0), PaymentAmount(20.0)]));
      Paid(t.payments) == 50.0 && Remaining(t) == 50.0 && Highlighted(t)
  {
    var ps := [PaymentAmount(30.0), PaymentAmount(20.0)];
    assert ps[1..][1..] == [];
  }

  /** A transaction of 50 with one payment of 75 is overpaid by 25. */
  lemma ExampleOverpaid()
    ensures var t := Transaction("t", "line", "phoneline_charging", 50.0, Some([PaymentAmount(75.0)]));
      Remaining(t) == -25.0 && !Highlighted(t)
  {
    assert [PaymentAmount(75.0)][1..] == [];
  }
}
