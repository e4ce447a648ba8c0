/** The dialog that edits a saved contract
    (components/contracts/ContractEditModal.tsx). It works on a private copy
    of the contract, keeps the collection date in step with the payments
    until the user types one, and on saving recomputes the purchase total
    and drops empty payment rows. */
module ContractEdit {
  import opened Types
  import opened Seqs
  import opened Ledger
  import opened Text

  /** The text inputs the dialog's `handleChange` serves. */
  datatype EditField = BrandName | BranchName | ContractDate | ConstructionDate | CollectionDate | Salesperson

  function WithField(c: Contract, f: EditField, v: string): Contract {
    match f
    case BrandName => c.(brandName := v)
    case BranchName => c.(branchName := v)
    case ContractDate => c.(contractDate := v)
    case ConstructionDate => c.(constructionDate := v)
    case CollectionDate => c.(collectionDate := Some(v))
    case Salesperson => c.(salesperson := v)
  }

  /** Whether the payments settle a positive sale. */
  predicate Settled(c: Contract) {
    c.salesAmount > 0 && c.salesAmount == TotalPaid(c)
  }

  /** What the dialog's effect leaves behind once it has run until nothing
      changes: with the automatic date on, a settled contract is dated today
      and an unsettled one loses a non-empty date. */
  function AutoDated(c: Contract, edited: bool, today: string): (r: Contract)
    requires today != ""
    ensures r.(collectionDate := c.collectionDate) == c
    ensures edited ==> r == c
    ensures !edited ==> (HasCollectionDate(r) <==> Settled(c))
    ensures !edited && Settled(c) ==> r.collectionDate == Some(today)
    ensures !edited && !Settled(c) && Truthy(c.collectionDate) ==> r.collectionDate == None
    ensures !edited && !Settled(c) && !Truthy(c.collectionDate) ==> r == c
  {
    if edited then c
    else if Settled(c) then (if c.collectionDate != Some(today) then c.(collectionDate := Some(today)) else c)
    else if Truthy(c.collectionDate) then c.(collectionDate := None)
    else c
  }

  /** Running the effect again changes nothing. */
  lemma AutoDatedIdempotent(c: Contract, edited: bool, today: string)
    requires today != ""
    ensures AutoDated(AutoDated(c, edited, today), edited, today) == AutoDated(c, edited, today)
  {
    var r := AutoDated(c, edited, today);
    assert TotalPaid(r) == TotalPaid(c) by {
      assert r.payments == c.payments;
    }
  }

  /** The contract `handleSubmit` hands back: the purchase total summed from
      the expenses, and only the payments with a positive amount and a date. */
  function Saved(c: Contract): Contract {
    c.(totalPurchaseAmount := SumOf(c.expenses, ExpenseAmount),
       payments := Filter(c.payments, KeepPayment))
  }

  predicate KeepPayment(p: Payment) {
    p.amount > 0 && p.date != ""
  }

  class EditSession {
    var local: Contract
    var collectionDateEdited: bool

    /** With the automatic date on, the copy carries a non-empty collection
        date exactly when its payments settle a positive sale. */
    predicate Valid()
      reads this
    {
      !collectionDateEdited ==> (HasCollectionDate(local) <==> Settled(local))
    }

    /** Opening the dialog: a deep copy of the contract; the automatic date is
        off if the contract already has a collection date; the effect then
        runs once. */
    constructor (contract: Contract, today: string)
      requires today != ""
      ensures collectionDateEdited == HasCollectionDate(contract)
      ensures local == AutoDated(contract, HasCollectionDate(contract), today)
      ensures Valid()
    {
      local := contract;
      collectionDateEdited := HasCollectionDate(contract);
      new;
      AutoDate(today);
    }

    /** The effect, run to its fixpoint. */
    method AutoDate(today: string)
      requires today != ""
      modifies this
      ensures local == AutoDated(old(local), collectionDateEdited, today)
      ensures collectionDateEdited == old(collectionDateEdited)
      ensures Valid()
    {
      if !collectionDateEdited {
        if Settled(local) {
          if local.collectionDate != Some(today) {
            local := local.(collectionDate := Some(today));
          }
        } else if Truthy(local.collectionDate) {
          local := local.(collectionDate := None);
        }
      }
    }

    /** The effect runs only when one of the values it watches changed. */
    method AfterChange(sales: int, paid: int, date: Option<string>, wasEdited: bool, today: string)
      requires today != ""
      requires (sales == local.salesAmount && paid == TotalPaid(local) && date == local.collectionDate &&
                wasEdited == collectionDateEdited) ==> Valid()
      modifies this
      ensures var watched := sales == old(local).salesAmount && paid == TotalPaid(old(local)) &&
                             date == old(local).collectionDate && wasEdited == collectionDateEdited;
              local == if watched then old(local) else AutoDated(old(local), collectionDateEdited, today)
      ensures collectionDateEdited == old(collectionDateEdited)
      ensures Valid()
    {
      if sales != local.salesAmount || paid != TotalPaid(local) || date != local.collectionDate ||
         wasEdited != collectionDateEdited {
        AutoDate(today);
      }
    }

    /** `handleChange`. Typing a collection date switches the automatic date
        off, so the effect that follows leaves the typed date alone. */
    method ChangeField(f: EditField, v: string, today: string)
      requires today != "" && Valid()
      modifies this
      ensures collectionDateEdited == (old(collectionDateEdited) || f == CollectionDate)
      ensures local == WithField(old(local), f, v)
      ensures Valid()
    {
      var sales, paid, date, wasEdited := local.salesAmount, TotalPaid(local), local.collectionDate, collectionDateEdited;
      if f == CollectionDate {
        collectionDateEdited := true;
      }
      local := WithField(local, f, v);
      AfterChange(sales, paid, date, wasEdited, today);
    }

    /** `handleAmountChange` on the sales amount. `input` is the text read as
        a number, `None` when it is not one; `Number(text) || 0` stores 0 then. */
    method ChangeSalesAmount(input: Option<int>, today: string)
      requires today != "" && Valid()
      modifies this
      ensures collectionDateEdited == old(collectionDateEdited)
      ensures local.salesAmount == (if input.Some? then input.value else 0)
      ensures local == if local.salesAmount == old(local).salesAmount then old(local)
                       else AutoDated(old(local).(salesAmount := local.salesAmount), collectionDateEdited, today)
      ensures Valid()
    {
      var sales, paid, date, wasEdited := local.salesAmount, TotalPaid(local), local.collectionDate, collectionDateEdited;
      local := local.(salesAmount := input.GetOr(0));
      AfterChange(sales, paid, date, wasEdited, today);
    }

    method ChangeExpenseItem(index: nat, v: string)
      requires index < |local.expenses|
      modifies this
      ensures local == old(local).(expenses := old(local).expenses[index := old(local).expenses[index].(item := v)])
      ensures collectionDateEdited == old(collectionDateEdited)
      ensures old(Valid()) ==> Valid()
    {
      local := local.(expenses := local.expenses[index := local.expenses[index].(item := v)]);
    }

    method ChangeExpenseAmount(index: nat, v: int)
      requires index < |local.expenses|
      modifies this
      ensures local == old(local).(expenses := old(local).expenses[index := old(local).expenses[index].(amount := v)])
      ensures collectionDateEdited == old(collectionDateEdited)
      ensures old(Valid()) ==> Valid()
    {
      local := local.(expenses := local.expenses[index := local.expenses[index].(amount := v)]);
    }

    /** A new blank expense; `stamp` stands for `new Date().getTime()`. */
    method AddExpense(stamp: nat)
      modifies this
      ensures local == old(local).(expenses := old(local).expenses + [Expense("exp-" + NatToString(stamp), "", 0)])
      ensures collectionDateEdited == old(collectionDateEdited)
      ensures old(Valid()) ==> Valid()
    {
      local := local.(expenses := local.expenses + [Expense("exp-" + NatToString(stamp), "", 0)]);
    }

    method RemoveExpense(id: string)
      modifies this
      ensures local == old(local).(expenses := RemoveById(old(local).expenses, ExpenseId, id))
      ensures collectionDateEdited == old(collectionDateEdited)
      ensures old(Valid()) ==> Valid()
    {
      local := local.(expenses := RemoveById(local.expenses, ExpenseId, id));
    }

    method ChangePaymentDate(index: nat, v: string)
      requires index < |local.payments|
      modifies this
      ensures local == old(local).(payments := old(local).payments[index := old(local).payments[index].(date := v)])
      ensures collectionDateEdited == old(collectionDateEdited)
      ensures old(Valid()) ==> Valid()
    {
      var ps := local.payments[index := local.payments[index].(date := v)];
      SumOfMatched(local.payments, PaymentAmount, ps, PaymentAmount);
      local := local.(payments := ps);
    }

    /** `handlePaymentChange` on an amount, which stores `Number(text)`. */
    method ChangePaymentAmount(index: nat, v: int, today: string)
      requires index < |local.payments|
      requires today != "" && Valid()
      modifies this
      ensures var edited := old(local).(payments := old(local).payments[index := old(local).payments[index].(amount := v)]);
              local == if TotalPaid(edited) == TotalPaid(old(local)) then edited
                       else AutoDated(edited, collectionDateEdited, today)
      ensures collectionDateEdited == old(collectionDateEdited)
      ensures Valid()
    {
      var sales, paid, date, wasEdited := local.salesAmount, TotalPaid(local), local.collectionDate, collectionDateEdited;
      local := local.(payments := local.payments[index := local.payments[index].(amount := v)]);
      AfterChange(sales, paid, date, wasEdited, today);
    }

    /** A new payment of 0 dated today, which leaves the total paid as it was. */
    method AddPayment(stamp: nat, today: string)
      requires Valid()
      modifies this
      ensures local == old(local).(payments := old(local).payments + [Payment("payment-" + NatToString(stamp), today, 0)])
      ensures TotalPaid(local) == TotalPaid(old(local))
      ensures collectionDateEdited == old(collectionDateEdited)
      ensures Valid()
    {
      var p := Payment("payment-" + NatToString(stamp), today, 0);
      SumOfConcat(local.payments, [p], PaymentAmount);
      SumOfCons(p, [], PaymentAmount);
      assert [p] + [] == [p];
      local := local.(payments := local.payments + [p]);
    }

    /** `handleRemovePayment`; the effect reruns if the total paid changed. */
    method RemovePayment(id: string, today: string)
      requires today != "" && Valid()
      modifies this
      ensures var edited := old(local).(payments := RemoveById(old(local).payments, PaymentId, id));
              local == if TotalPaid(edited) == TotalPaid(old(local)) then edited
                       else AutoDated(edited, collectionDateEdited, today)
      ensures collectionDateEdited == old(collectionDateEdited)
      ensures Valid()
    {
      var sales, paid, date, wasEdited := local.salesAmount, TotalPaid(local), local.collectionDate, collectionDateEdited;
      local := local.(payments := RemoveById(local.payments, PaymentId, id));
      AfterChange(sales, paid, date, wasEdited, today);
    }

    /** `handleSubmit`: the contract passed to `onSave`. */
    method Submit() returns (saved: Contract)
      ensures saved == Saved(local)
    {
      saved := Saved(local);
    }
  }

  /** Saving keeps the contract's identity and every field the dialog does
      not recompute. */
  lemma SavedKeepsFields(c: Contract)
    ensures Saved(c).id == c.id && Saved(c).salesAmount == c.salesAmount
    ensures Saved(c).expenses == c.expenses && Saved(c).collectionDate == c.collectionDate
    ensures Saved(c).(totalPurchaseAmount := c.totalPurchaseAmount, payments := c.payments) == c
  {
  }

  /** The saved payments are the dated positive ones, in their order. When
      every payment is dated, what they add up to is never less than the
      dialog's total paid, and it is the same when none is negative either. */
  lemma {:induction false} SavedPayments(c: Contract)
    ensures forall p :: p in Saved(c).payments <==> p in c.payments && p.amount > 0 && p.date != ""
    ensures TotalPaid(Saved(c)) >= 0
    ensures (forall p :: p in c.payments ==> p.date != "") ==> TotalPaid(Saved(c)) >= TotalPaid(c)
    ensures (forall p :: p in c.payments ==> p.amount >= 0 && (p.amount > 0 ==> p.date != "")) ==>
              TotalPaid(Saved(c)) == TotalPaid(c)
  {
    var kept := Filter(c.payments, KeepPayment);
    SumOfPositive(kept, PaymentAmount);
    if forall p :: p in c.payments ==> p.date != "" {
      SumOfFilterNonPositive(c.payments, KeepPayment, PaymentAmount);
    }
    if forall p :: p in c.payments ==> p.amount >= 0 && (p.amount > 0 ==> p.date != "") {
      SumOfFilterZero(c.payments, KeepPayment, PaymentAmount);
    }
  }

  /** The saved purchase total is the sum of the expense amounts, so the
      saved profit is the sales amount less them. */
  lemma SavedProfit(c: Contract)
    ensures PurchasesOf(Saved(c)) == SumOf(c.expenses, ExpenseAmount)
    ensures ProfitOf(Saved(c)) == c.salesAmount - SumOf(c.expenses, ExpenseAmount)
  {
  }

  /** With the automatic date on and every payment dated and not negative,
      the saved contract is marked collected exactly when its sale is
      positive and fully paid. */
  lemma AutoDateMeansSettled(c: Contract)
    requires HasCollectionDate(c) <==> Settled(c)
    requires forall p :: p in c.payments ==> p.amount >= 0 && (p.amount > 0 ==> p.date != "")
    ensures HasCollectionDate(Saved(c)) <==> Saved(c).salesAmount > 0 && Balance(Saved(c)) == 0
  {
    SavedPayments(c);
  }

  /** A contract whose only payment settles the sale but carries no date. */
  const UndatedSettlement: Contract :=
    Contract("c-1", "brand", "", "2024-01-01", "", None, 100, [Payment("p-1", "", 100)], 0, [], "")

  /** Without the requirement that positive payments are dated, the rule
      fails: a positive payment with no date settles the sale, so the dialog
      dates the contract, and saving then drops that payment, leaving a
      contract marked collected with its whole sale outstanding. */
  lemma UndatedPaymentSavedAsCollected()
    ensures AutoDated(UndatedSettlement, false, "2024-02-01").collectionDate == Some("2024-02-01")
    ensures HasCollectionDate(Saved(AutoDated(UndatedSettlement, false, "2024-02-01")))
    ensures Saved(AutoDated(UndatedSettlement, false, "2024-02-01")).payments == []
    ensures Balance(Saved(AutoDated(UndatedSettlement, false, "2024-02-01"))) == 100
  {
    var c := UndatedSettlement;
    assert TotalPaid(c) == 100 by {
      assert c.payments[..0] == [];
    }
    var saved := Saved(AutoDated(c, false, "2024-02-01"));
    assert saved.payments == [];
  }
}
