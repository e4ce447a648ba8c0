/** The money arithmetic every screen repeats: what a contract has been paid,
    what is still owed on it, its profit, and the receivables built on those.
    Amounts are whole currency units. */
module Ledger {
  import opened Types
  import opened Seqs

  function PaymentAmount(p: Payment): int { p.amount }
  function ExpenseAmount(e: Expense): int { e.amount }
  function SalesOf(c: Contract): int { c.salesAmount }
  function PurchasesOf(c: Contract): int { c.totalPurchaseAmount }
  function ProfitOf(c: Contract): int { c.salesAmount - c.totalPurchaseAmount }
  function BrandNameOf(c: Contract): string { c.brandName }

  /** `c.payments.reduce((sum, p) => sum + p.amount, 0)`. */
  function TotalPaid(c: Contract): int {
    SumOf(c.payments, PaymentAmount)
  }

  /** What is still owed on a contract. */
  function Balance(c: Contract): int {
    c.salesAmount - TotalPaid(c)
  }

  /** A contract is a receivable while money is owed on it and no collection date is set. */
  predicate IsOutstanding(c: Contract) {
    Balance(c) > 0 && !HasCollectionDate(c)
  }

  /** Recording one more payment lowers the balance by exactly its amount. */
  lemma PaymentLowersBalance(c: Contract, p: Payment)
    ensures TotalPaid(c.(payments := c.payments + [p])) == TotalPaid(c) + p.amount
    ensures Balance(c.(payments := c.payments + [p])) == Balance(c) - p.amount
  {
    assert (c.payments + [p])[..|c.payments|] == c.payments;
  }

  /** Total profit is total sales less total purchases. */
  lemma {:induction false} TotalProfit(xs: seq<Contract>)
    ensures SumOf(xs, ProfitOf) == SumOf(xs, SalesOf) - SumOf(xs, PurchasesOf)
  {
    SumOfLinear(xs, SalesOf, PurchasesOf, ProfitOf);
  }

  /** The same, within every group of a grouping. */
  lemma GroupProfit<K(!new)>(xs: seq<Contract>, key: Contract -> K)
    ensures forall k :: SumWhere(xs, key, ProfitOf, k) == SumWhere(xs, key, SalesOf, k) - SumWhere(xs, key, PurchasesOf, k)
  {
    forall k ensures SumWhere(xs, key, ProfitOf, k) == SumWhere(xs, key, SalesOf, k) - SumWhere(xs, key, PurchasesOf, k) {
      TotalProfit(Select(xs, key, k));
    }
  }

  /** `calculateDaysOverdue`: whole days from the construction date to today,
      never negative, and 0 for a date that does not parse (a NaN difference
      fails the `> 0` test). `today` and the date are day numbers. */
  function DaysOverdue(today: int, d: ParsedDate): (r: int)
    ensures r >= 0
    ensures d.Valid? && d.day < today ==> r == today - d.day
    ensures d.Invalid? || d.day >= today ==> r == 0
  {
    match d
    case Invalid => 0
    case Valid(_, _, day) => if today - day > 0 then today - day else 0
  }

  /** A contract with its balance attached: `{ ...c, balance }`. */
  datatype Receivable = Receivable(contract: Contract, balance: int)

  function ReceivableBalance(r: Receivable): int { r.balance }

  /** `contracts.map(c => ({ ...c, balance }))`. */
  function WithBalance(xs: seq<Contract>): (r: seq<Receivable>)
    ensures |r| == |xs|
    ensures forall i :: 0 <= i < |xs| ==> r[i] == Receivable(xs[i], Balance(xs[i]))
  {
    if xs == [] then [] else WithBalance(xs[..|xs| - 1]) + [Receivable(xs[|xs| - 1], Balance(xs[|xs| - 1]))]
  }

  /** The test `c.balance > 0 && !c.collectionDate`. */
  predicate Owing(r: Receivable) {
    r.balance > 0 && !HasCollectionDate(r.contract)
  }

  /** The outstanding contracts, in list order, each with its balance: exactly
      the contracts owed money and without a collection date, whatever their
      balance once a collection date is set. */
  function Outstanding(xs: seq<Contract>): (r: seq<Receivable>)
    ensures forall c :: Receivable(c, Balance(c)) in r <==> c in xs && IsOutstanding(c)
    ensures forall x :: x in r ==> x.contract in xs && x.balance == Balance(x.contract) && IsOutstanding(x.contract)
    ensures forall x :: multiset(r)[x] <= multiset(WithBalance(xs))[x]
  {
    WithBalanceMembers(xs);
    FilterCount(WithBalance(xs), Owing);
    Filter(WithBalance(xs), Owing)
  }

  lemma WithBalanceMembers(xs: seq<Contract>)
    ensures forall x :: x in WithBalance(xs) <==> x.contract in xs && x.balance == Balance(x.contract)
  {
    var ws := WithBalance(xs);
    forall x ensures x in ws <==> x.contract in xs && x.balance == Balance(x.contract) {
      if x in ws {
        var i :| 0 <= i < |ws| && ws[i] == x;
        assert xs[i] == x.contract;
      }
      if x.contract in xs && x.balance == Balance(x.contract) {
        var i :| 0 <= i < |xs| && xs[i] == x.contract;
        assert ws[i] == x;
      }
    }
  }

  /** The outstanding total is the sum of the balances of the outstanding contracts. */
  lemma {:induction false} OutstandingTotal(xs: seq<Contract>)
    ensures SumOf(Outstanding(xs), ReceivableBalance) == SumOf(Filter(xs, IsOutstanding), Balance)
  {
    if xs != [] {
      var init, c := xs[..|xs| - 1], xs[|xs| - 1];
      assert WithBalance(xs)[..|xs| - 1] == WithBalance(init);
      OutstandingTotal(init);
      var tail := if Owing(Receivable(c, Balance(c))) then [Receivable(c, Balance(c))] else [];
      var tail' := if IsOutstanding(c) then [c] else [];
      assert Outstanding(xs) == Outstanding(init) + tail;
      assert Filter(xs, IsOutstanding) == Filter(init, IsOutstanding) + tail';
      SumOfConcat(Outstanding(init), tail, ReceivableBalance);
      SumOfConcat(Filter(init, IsOutstanding), tail', Balance);
    }
  }

  /** The outstanding total is never negative, and is positive exactly when
      some contract is outstanding. */
  lemma OutstandingTotalSign(xs: seq<Contract>)
    ensures SumOf(Outstanding(xs), ReceivableBalance) >= 0
    ensures SumOf(Outstanding(xs), ReceivableBalance) > 0 <==> Outstanding(xs) != []
  {
    SumOfPositive(Outstanding(xs), ReceivableBalance);
  }
}
