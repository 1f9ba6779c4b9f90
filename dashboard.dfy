/**
 * The dashboard of `web/src/routes/index.tsx`: a `forEach` over every customer's outstanding
 * balance that adds the positive ones into `r` (receivable) and the negative ones into `o`
 * (payable, kept signed), and the displayed figures.
 */
module Dashboard {

  import opened Wrappers
  import Sums
  import Ledger

  /** What one balance contributes to `r`: itself when strictly positive, else nothing. */
  function PositivePart(b: Option<real>): real {
    if b.Some? && b.value > 0.0 then b.value else 0.0
  }

  /** What one balance contributes to `o`: itself when strictly negative, else nothing. */
  function NegativePart(b: Option<real>): real {
    if b.Some? && b.value < 0.0 then b.value else 0.0
  }

  /** A balance's own value, a null `outstanding` counting as 0. */
  function ValueOf(b: Option<real>): real {
    b.GetOr(0.0)
  }

  function Receivable(bs: seq<Option<real>>): real {
    Sums.SumBy(bs, PositivePart)
  }

  function Payable(bs: seq<Option<real>>): real {
    Sums.SumBy(bs, NegativePart)
  }

  function Net(bs: seq<Option<real>>): real {
    Sums.SumBy(bs, ValueOf)
  }

  /** `balances ?? []`: a failed or empty query has no entries. */
  function Entries(balances: Option<seq<Option<real>>>): seq<Option<real>> {
    balances.GetOr([])
  }

  /** The `forEach` loop of `load`, accumulating into `r` and `o`. */
  method Totals(balances: Option<seq<Option<real>>>) returns (r: real, o: real)
    ensures r == Receivable(Entries(balances)) && o == Payable(Entries(balances))
    ensures r >= 0.0 && o <= 0.0
    ensures r + o == Net(Entries(balances))
  {
    r, o := 0.0, 0.0;
    Sums.SumByAdd([], PositivePart, NegativePart, ValueOf);
    if balances.None? {
      return;
    }
    var bs := balances.value;
    var i := 0;
    while i < |bs|
      invariant 0 <= i <= |bs|
      invariant r == Receivable(bs[..i]) && o == Payable(bs[..i])
      invariant r >= 0.0 && o <= 0.0
      invariant r + o == Net(bs[..i])
    {
      var b := bs[i];
      assert bs[..i + 1] == bs[..i] + [b];
      Sums.SumBySnoc(bs[..i], b, PositivePart);
      Sums.SumBySnoc(bs[..i], b, NegativePart);
      Sums.SumBySnoc(bs[..i], b, ValueOf);
      if b.Some? && b.value > 0.0 {
        r := r + b.value;
      } else if b.Some? && b.value < 0.0 {
        o := o + b.value;
      }
      i := i + 1;
    }
    assert bs[..i] == bs;
  }

  /** `r` is exactly the sum of the strictly positive balances. */
  function Positives(bs: seq<Option<real>>): (r: seq<real>)
    ensures forall i :: 0 <= i < |r| ==> r[i] > 0.0
  {
    if bs == [] then []
    else (if bs[0].Some? && bs[0].value > 0.0 then [bs[0].value] else []) + Positives(bs[1..])
  }

  function Negatives(bs: seq<Option<real>>): (r: seq<real>)
    ensures forall i :: 0 <= i < |r| ==> r[i] < 0.0
  {
    if bs == [] then []
    else (if bs[0].Some? && bs[0].value < 0.0 then [bs[0].value] else []) + Negatives(bs[1..])
  }

  function Id(x: real): real {
    x
  }

  lemma {:induction false} ReceivableIsSumOfPositives(bs: seq<Option<real>>)
    ensures Receivable(bs) == Sums.SumBy(Positives(bs), Id)
  {
    if bs != [] {
      ReceivableIsSumOfPositives(bs[1..]);
      var head := if bs[0].Some? && bs[0].value > 0.0 then [bs[0].value] else [];
      Sums.SumByAppend(head, Positives(bs[1..]), Id);
      assert head != [] ==> head[1..] == [];
    }
  }

  lemma {:induction false} PayableIsSumOfNegatives(bs: seq<Option<real>>)
    ensures Payable(bs) == Sums.SumBy(Negatives(bs), Id)
  {
    if bs != [] {
      PayableIsSumOfNegatives(bs[1..]);
      var head := if bs[0].Some? && bs[0].value < 0.0 then [bs[0].value] else [];
      Sums.SumByAppend(head, Negatives(bs[1..]), Id);
      assert head != [] ==> head[1..] == [];
    }
  }

  /** Reconstruction: receivable plus the signed payable is the sum of all balances. */
  lemma NetSplits(bs: seq<Option<real>>)
    ensures Receivable(bs) + Payable(bs) == Net(bs)
  {
    Sums.SumByAdd(bs, PositivePart, NegativePart, ValueOf);
  }

  /** Zero and null balances go to neither bucket. */
  lemma NeutralEntriesIgnored(bs: seq<Option<real>>, b: Option<real>)
    requires b.None? || b.value == 0.0
    ensures Receivable(bs + [b]) == Receivable(bs) && Payable(bs + [b]) == Payable(bs)
  {
    Sums.SumBySnoc(bs, b, PositivePart);
    Sums.SumBySnoc(bs, b, NegativePart);
  }

  lemma AllPositiveOwesNothing(bs: seq<Option<real>>)
    requires forall i :: 0 <= i < |bs| ==> bs[i].Some? && bs[i].value > 0.0
    ensures Payable(bs) == 0.0 && Receivable(bs) == Net(bs)
  {
    Sums.SumByNonPositive(bs, NegativePart);
    Sums.SumByNonNegative(bs, NegativePart);
    NetSplits(bs);
  }

  lemma AllNegativeReceivesNothing(bs: seq<Option<real>>)
    requires forall i :: 0 <= i < |bs| ==> bs[i].Some? && bs[i].value < 0.0
    ensures Receivable(bs) == 0.0 && Payable(bs) == Net(bs)
  {
    Sums.SumByNonPositive(bs, PositivePart);
    Sums.SumByNonNegative(bs, PositivePart);
    NetSplits(bs);
  }

  /** With exact arithmetic the store's row order does not change either figure. */
  lemma TotalsOrderIndependent(a: seq<Option<real>>, b: seq<Option<real>>)
    requires multiset(a) == multiset(b)
    ensures Receivable(a) == Receivable(b) && Payable(a) == Payable(b)
  {
    Sums.SumByPermutation(a, b, PositivePart);
    Sums.SumByPermutation(a, b, NegativePart);
  }

  /** "You Owe" shows `Math.abs(owe ?? 0)`: the magnitude of the payable bucket. */
  function OweShown(owe: Option<real>): (shown: real)
    ensures shown >= 0.0
    ensures owe.Some? && owe.value <= 0.0 ==> shown == -owe.value
  {
    Ledger.Abs(owe.GetOr(0.0))
  }

  /** Balances 25, -25 and 0 show 25 to receive and 25 owed. */
  lemma ExamplePortfolio()
    ensures var bs: seq<Option<real>> := [Some(25.0), Some(-25.0), Some(0.0)];
      Receivable(bs) == 25.0 && Payable(bs) == -25.0 && OweShown(Some(Payable(bs))) == 25.0
  {
    var bs: seq<Option<real>> := [Some(25.0), Some(-25.0), Some(0.0)];
    assert bs[1..][1..][1..] == [];
  }

  /** The dashboard's state cells. */
  class DashboardView {
    var customersCount: Option<nat>
    var receive: Option<real>
    var owe: Option<real>
    var loading: bool

    /** Once loaded, the receivable figure is never negative and the payable one never positive. */
    predicate Valid()
      reads this
    {
      (receive.Some? ==> receive.value >= 0.0) && (owe.Some? ==> owe.value <= 0.0)
    }

    constructor ()
      ensures Valid()
      ensures customersCount.None? && receive.None? && owe.None? && loading
    {
      customersCount, receive, owe, loading := None, None, None, true;
    }

    /** `load()` once the two queries have answered. */
    method Load(count: Option<nat>, balances: Option<seq<Option<real>>>)
      modifies this
      ensures Valid()
      ensures customersCount == Some(count.GetOr(0)) && !loading
      ensures receive == Some(Receivable(Entries(balances)))
      ensures owe == Some(Payable(Entries(balances)))
    {
      loading := true;
      var r, o := Totals(balances);
      customersCount := Some(count.GetOr(0));
      receive := Some(r);
      owe := Some(o);
      loading := false;
    }

    /** The "Outstanding (Receive)" figure, or None while the placeholder is shown. */
    function ReceiveShown(): (shown: Option<real>)
      requires Valid()
      reads this
      ensures loading <==> shown.None?
      ensures shown.Some? ==> shown.value == receive.GetOr(0.0) && shown.value >= 0.0
    {
      if loading then None else Some(receive.GetOr(0.0))
    }

    /** The "You Owe" figure, or None while the placeholder is shown. */
    function OweFigure(): (shown: Option<real>)
      requires Valid()
      reads this
      ensures loading <==> shown.None?
      ensures shown.Some? ==> shown.value == OweShown(owe) && shown.value >= 0.0
      ensures shown.Some? && owe.Some? ==> shown.value == -owe.value
    {
      if loading then None else Some(OweShown(owe))
    }
  }
}
