/** The contract screen (components/contracts/ContractManagement.tsx): the
    form that registers a new contract, the list with its CSV export and JSON
    import, and the loading step that migrates contracts stored by the older
    single-down-payment format. */
module ContractManagement {
  import opened Types
  import opened Seqs
  import opened Text
  import opened Ledger
  import opened Csv
  import opened FileImport
  import Receivables

  // ---- The new-contract form ----

  /** An expense row of the form; `amount` is absent until a number is typed. */
  datatype DraftExpense = DraftExpense(item: string, amount: Option<int>)

  const BlankExpense: DraftExpense := DraftExpense("", None)

  /** The form's fields at one moment. The two amounts are the number inputs
      as the form reads them, `Number(text) || 0`. */
  datatype ContractDraft = ContractDraft(
    brandName: string,
    branchName: string,
    contractDate: string,
    constructionDate: string,
    collectionDate: string,
    salesAmount: int,
    downPayment: int,
    salesperson: string,
    expenses: seq<DraftExpense>)

  const EmptyDraft: ContractDraft := ContractDraft("", "", "", "", "", 0, 0, "", [BlankExpense])

  /** The plain text inputs of the form. */
  datatype TextField = BrandName | BranchName | ContractDate | ConstructionDate | Salesperson

  function WithText(d: ContractDraft, f: TextField, v: string): ContractDraft {
    match f
    case BrandName => d.(brandName := v)
    case BranchName => d.(branchName := v)
    case ContractDate => d.(contractDate := v)
    case ConstructionDate => d.(constructionDate := v)
    case Salesperson => d.(salesperson := v)
  }

  /** The collection date the form fills in by itself: today when the down
      payment settles a positive sale, empty otherwise. */
  function AutoCollectionDate(sales: int, down: int, today: string): (r: string)
    requires today != ""
    ensures r != "" <==> sales > 0 && sales == down
    ensures r != "" ==> r == today
  {
    if sales > 0 && sales == down then today else ""
  }

  /** `expenses.filter((_, i) => i !== index)`. */
  function RemoveAt<T>(xs: seq<T>, index: int): (r: seq<T>)
    ensures 0 <= index < |xs| ==> |r| == |xs| - 1
    ensures 0 <= index < |xs| ==> forall j :: 0 <= j < |r| ==> r[j] == if j < index then xs[j] else xs[j + 1]
    ensures !(0 <= index < |xs|) ==> r == xs
  {
    if 0 <= index < |xs| then xs[..index] + xs[index + 1..] else xs
  }

  /** The form, with the flag that records whether the user has typed a
      collection date (which switches the automatic date off). */
  class ContractForm {
    var brandName: string
    var branchName: string
    var contractDate: string
    var constructionDate: string
    var collectionDate: string
    var salesAmount: int
    var downPayment: int
    var salesperson: string
    var expenses: seq<DraftExpense>
    var collectionDateEdited: bool

    function Draft(): ContractDraft
      reads this
    {
      ContractDraft(brandName, branchName, contractDate, constructionDate, collectionDate,
                    salesAmount, downPayment, salesperson, expenses)
    }

    /** Until the user types a collection date, one is set exactly when the
        down payment equals a positive sales amount. */
    predicate Valid()
      reads this
    {
      !collectionDateEdited ==> (collectionDate != "" <==> salesAmount > 0 && salesAmount == downPayment)
    }

    /** The form as it first renders, after its effect has run once. */
    constructor ()
      ensures Draft() == EmptyDraft && !collectionDateEdited
      ensures Valid()
    {
      brandName, branchName, contractDate, constructionDate, collectionDate := "", "", "", "", "";
      salesAmount, downPayment, salesperson := 0, 0, "";
      expenses := [BlankExpense];
      collectionDateEdited := false;
    }

    /** The effect that runs when the sales amount, the down payment or the
        flag change; `today` is the current date as `YYYY-MM-DD`. */
    method CollectionDateEffect(today: string)
      requires today != ""
      modifies this
      ensures collectionDate == if collectionDateEdited then old(collectionDate)
                                else AutoCollectionDate(salesAmount, downPayment, today)
      ensures Draft() == old(Draft()).(collectionDate := collectionDate)
      ensures collectionDateEdited == old(collectionDateEdited)
      ensures Valid()
    {
      if !collectionDateEdited {
        collectionDate := AutoCollectionDate(salesAmount, downPayment, today);
      }
    }

    method SetText(f: TextField, v: string)
      modifies this
      ensures Draft() == WithText(old(Draft()), f, v)
      ensures collectionDateEdited == old(collectionDateEdited)
      ensures old(Valid()) ==> Valid()
    {
      match f
      case BrandName => brandName := v;
      case BranchName => branchName := v;
      case ContractDate => contractDate := v;
      case ConstructionDate => constructionDate := v;
      case Salesperson => salesperson := v;
    }

    /** Typing a sales amount; the effect runs only if the value changed. */
    method SetSalesAmount(v: int, today: string)
      requires today != "" && Valid()
      modifies this
      ensures Draft() == old(Draft()).(salesAmount := v, collectionDate := collectionDate)
      ensures collectionDateEdited == old(collectionDateEdited)
      ensures collectionDate == if collectionDateEdited || v == old(salesAmount) then old(collectionDate)
                                else AutoCollectionDate(v, downPayment, today)
      ensures Valid()
    {
      if v != salesAmount {
        salesAmount := v;
        CollectionDateEffect(today);
      }
    }

    /** Typing a down payment; the effect runs only if the value changed. */
    method SetDownPayment(v: int, today: string)
      requires today != "" && Valid()
      modifies this
      ensures Draft() == old(Draft()).(downPayment := v, collectionDate := collectionDate)
      ensures collectionDateEdited == old(collectionDateEdited)
      ensures collectionDate == if collectionDateEdited || v == old(downPayment) then old(collectionDate)
                                else AutoCollectionDate(salesAmount, v, today)
      ensures Valid()
    {
      if v != downPayment {
        downPayment := v;
        CollectionDateEffect(today);
      }
    }

    /** Typing a collection date turns the automatic date off for good. */
    method ChangeCollectionDate(v: string)
      modifies this
      ensures Draft() == old(Draft()).(collectionDate := v)
      ensures collectionDateEdited
      ensures Valid()
    {
      collectionDate := v;
      collectionDateEdited := true;
    }

    method AddExpense()
      modifies this
      ensures Draft() == old(Draft()).(expenses := old(expenses) + [BlankExpense])
      ensures collectionDateEdited == old(collectionDateEdited)
      ensures old(Valid()) ==> Valid()
    {
      expenses := expenses + [BlankExpense];
    }

    method ChangeExpenseItem(index: nat, v: string)
      requires index < |expenses|
      modifies this
      ensures Draft() == old(Draft()).(expenses := old(expenses)[index := old(expenses)[index].(item := v)])
      ensures collectionDateEdited == old(collectionDateEdited)
      ensures old(Valid()) ==> Valid()
    {
      expenses := expenses[index := expenses[index].(item := v)];
    }

    /** The amount input stores `Number(text)`, so clearing it stores 0. */
    method ChangeExpenseAmount(index: nat, v: int)
      requires index < |expenses|
      modifies this
      ensures Draft() == old(Draft()).(expenses := old(expenses)[index := old(expenses)[index].(amount := Some(v))])
      ensures collectionDateEdited == old(collectionDateEdited)
      ensures old(Valid()) ==> Valid()
    {
      expenses := expenses[index := expenses[index].(amount := Some(v))];
    }

    method RemoveExpense(index: int)
      modifies this
      ensures Draft() == old(Draft()).(expenses := RemoveAt(old(expenses), index))
      ensures collectionDateEdited == old(collectionDateEdited)
      ensures old(Valid()) ==> Valid()
    {
      expenses := RemoveAt(expenses, index);
    }

    /** Submitting: the new contract is built from the fields, and the form
        goes back to its first state (its effect then leaves the collection
        date empty, as the sales amount is 0). */
    method Submit(stamp: nat) returns (c: Contract)
      modifies this
      ensures c == NewContract(old(Draft()), stamp)
      ensures Draft() == EmptyDraft && !collectionDateEdited
      ensures Valid()
    {
      c := NewContract(Draft(), stamp);
      Reset();
    }

    /** Every field back to its first value, the flag cleared. */
    method Reset()
      modifies this
      ensures Draft() == EmptyDraft && !collectionDateEdited
      ensures Valid()
    {
      brandName, branchName, contractDate, constructionDate, collectionDate := "", "", "", "", "";
      salesAmount, downPayment, salesperson := 0, 0, "";
      expenses := [BlankExpense];
      collectionDateEdited := false;
    }
  }

  /** The remaining balance the form shows while it is being filled in. */
  function DraftBalance(d: ContractDraft): int {
    d.salesAmount - d.downPayment
  }

  /** The expense rows that are saved: a non-blank item and a positive amount. */
  predicate KeepExpense(e: DraftExpense) {
    e.item != "" && Trim(e.item) != "" && e.amount.Some? && e.amount.value > 0
  }

  /** `Number(exp.amount) || 0`. */
  function DraftAmount(e: DraftExpense): int {
    if e.amount.Some? then e.amount.value else 0
  }

  /** `ds.map((exp, i) => ({...exp, id: prefix + (from + i)}))`. */
  function StampExpenses(ds: seq<DraftExpense>, prefix: string, from: nat): (r: seq<Expense>)
    ensures |r| == |ds|
    ensures forall i :: 0 <= i < |ds| ==>
              r[i] == Expense(prefix + NatToString(from + i), ds[i].item, DraftAmount(ds[i]))
  {
    if ds == [] then []
    else [Expense(prefix + NatToString(from), ds[0].item, DraftAmount(ds[0]))] + StampExpenses(ds[1..], prefix, from + 1)
  }

  /** The down payment recorded as the first payment, when there is one. */
  function DownPayments(d: ContractDraft, stamp: nat): seq<Payment> {
    if d.downPayment > 0 then [Payment("payment-" + NatToString(stamp), d.contractDate, d.downPayment)] else []
  }

  /** The contract `handleSubmit` builds; `stamp` stands for `new Date().getTime()`. */
  function NewContract(d: ContractDraft, stamp: nat): Contract {
    var kept := Filter(d.expenses, KeepExpense);
    Contract(
      "contract-" + NatToString(stamp),
      d.brandName, d.branchName, d.contractDate, d.constructionDate,
      if d.collectionDate == "" then None else Some(d.collectionDate),
      d.salesAmount,
      DownPayments(d, stamp),
      SumOf(kept, DraftAmount),
      StampExpenses(kept, "exp-" + NatToString(stamp) + "-", 0),
      d.salesperson)
  }

  /** The saved expenses are exactly the complete rows of the form, in order;
      each has a name and a positive amount, and the purchase total is their sum. */
  lemma NewContractExpenses(d: ContractDraft, stamp: nat)
    ensures var c := NewContract(d, stamp);
      && |c.expenses| == |Filter(d.expenses, KeepExpense)|
      && (forall i :: 0 <= i < |c.expenses| ==>
            c.expenses[i].item == Filter(d.expenses, KeepExpense)[i].item
            && Trim(c.expenses[i].item) != "" && c.expenses[i].amount > 0)
      && c.totalPurchaseAmount == SumOf(c.expenses, ExpenseAmount)
  {
    var kept := Filter(d.expenses, KeepExpense);
    var stamped := StampExpenses(kept, "exp-" + NatToString(stamp) + "-", 0);
    var c := NewContract(d, stamp);
    assert c.expenses == stamped && c.totalPurchaseAmount == SumOf(kept, DraftAmount);
    forall i | 0 <= i < |kept| ensures KeepExpense(kept[i]) {
      assert kept[i] in kept;
    }
    SumOfMatched(kept, DraftAmount, stamped, ExpenseAmount);
  }

  /** The purchase total is positive exactly when some expense row is complete. */
  lemma NewContractPurchaseSign(d: ContractDraft, stamp: nat)
    ensures NewContract(d, stamp).totalPurchaseAmount >= 0
    ensures NewContract(d, stamp).totalPurchaseAmount > 0 <==> exists e :: e in d.expenses && KeepExpense(e)
  {
    var kept := Filter(d.expenses, KeepExpense);
    SumOfPositive(kept, DraftAmount);
    if kept != [] {
      assert kept[0] in kept;
    }
  }

  /** The expense ids of a new contract are pairwise different. */
  lemma NewContractExpenseIds(d: ContractDraft, stamp: nat)
    ensures var c := NewContract(d, stamp);
      forall i, j :: 0 <= i < j < |c.expenses| ==> c.expenses[i].id != c.expenses[j].id
  {
    var c := NewContract(d, stamp);
    var prefix := "exp-" + NatToString(stamp) + "-";
    forall i, j | 0 <= i < j < |c.expenses| ensures c.expenses[i].id != c.expenses[j].id {
      if c.expenses[i].id == c.expenses[j].id {
        assert (prefix + NatToString(i))[|prefix|..] == NatToString(i);
        assert (prefix + NatToString(j))[|prefix|..] == NatToString(j);
        NatToStringValue(i);
        NatToStringValue(j);
      }
    }
  }

  /** A positive down payment becomes the contract's one payment, dated on
      the contract date; otherwise the contract starts with none. Either way
      the amount paid is the down payment, never negative. */
  lemma NewContractPayments(d: ContractDraft, stamp: nat)
    ensures var c := NewContract(d, stamp);
      && (|c.payments| == 1 <==> d.downPayment > 0)
      && (c.payments == [] <==> d.downPayment <= 0)
      && (forall p :: p in c.payments ==> p.amount == d.downPayment && p.date == d.contractDate)
      && TotalPaid(c) == (if d.downPayment > 0 then d.downPayment else 0)
      && Balance(c) == d.salesAmount - TotalPaid(c)
  {
    var c := NewContract(d, stamp);
    if d.downPayment > 0 {
      assert c.payments[..0] == [];
      assert TotalPaid(c) == SumOf(c.payments[..0], PaymentAmount) + c.payments[0].amount;
    }
  }

  /** An empty collection date is stored as null, so only a typed or
      automatic date marks the contract as collected. */
  lemma NewContractCollection(d: ContractDraft, stamp: nat)
    ensures HasCollectionDate(NewContract(d, stamp)) <==> d.collectionDate != ""
    ensures NewContract(d, stamp).collectionDate.GetOr("") == d.collectionDate
  {
  }

  /** With the automatic date in force, a contract is saved as collected
      exactly when its sales amount is positive and nothing remains to pay. */
  lemma AutoDateMeansSettled(d: ContractDraft, stamp: nat)
    requires d.collectionDate != "" <==> d.salesAmount > 0 && d.salesAmount == d.downPayment
    ensures var c := NewContract(d, stamp);
      HasCollectionDate(c) <==> c.salesAmount > 0 && Balance(c) == 0
    ensures HasCollectionDate(NewContract(d, stamp)) ==> DraftBalance(d) == 0
  {
    NewContractPayments(d, stamp);
    NewContractCollection(d, stamp);
  }

  // ---- Loading and migrating the stored list ----

  /** A contract as read from storage. Records written by the older format
      carry a `downPayment` and may lack `payments`. */
  datatype StoredContract = StoredContract(
    id: string,
    brandName: string,
    branchName: string,
    contractDate: string,
    constructionDate: string,
    collectionDate: Option<string>,
    salesAmount: int,
    payments: Option<seq<Payment>>,
    downPayment: Option<int>,
    totalPurchaseAmount: int,
    expenses: seq<Expense>,
    salesperson: string)

  /** One record through the migration: a record without `downPayment` keeps
      its payments (an empty list if it had none); an old record drops its
      payments and gets its positive down payment as the only payment. */
  function Migrate(s: StoredContract): Contract {
    var payments :=
      if s.downPayment.None? then s.payments.GetOr([])
      else if s.downPayment.value > 0 then [Payment("payment-" + s.id + "-migrated", s.contractDate, s.downPayment.value)]
      else [];
    Contract(s.id, s.brandName, s.branchName, s.contractDate, s.constructionDate, s.collectionDate,
             s.salesAmount, payments, s.totalPurchaseAmount, s.expenses, s.salesperson)
  }

  function MigrateAll(ss: seq<StoredContract>): (r: seq<Contract>)
    ensures |r| == |ss|
    ensures forall i :: 0 <= i < |ss| ==> r[i] == Migrate(ss[i])
  {
    if ss == [] then [] else [Migrate(ss[0])] + MigrateAll(ss[1..])
  }

  /** The migrated list is written back only if some record was in the old format. */
  predicate NeedsSave(ss: seq<StoredContract>) {
    exists i :: 0 <= i < |ss| && ss[i].downPayment.Some?
  }

  /** A contract as the current version stores it. */
  function AsStored(c: Contract): StoredContract {
    StoredContract(c.id, c.brandName, c.branchName, c.contractDate, c.constructionDate, c.collectionDate,
                   c.salesAmount, Some(c.payments), None, c.totalPurchaseAmount, c.expenses, c.salesperson)
  }

  function StoreAll(cs: seq<Contract>): (r: seq<StoredContract>)
    ensures |r| == |cs|
    ensures forall i :: 0 <= i < |cs| ==> r[i] == AsStored(cs[i])
  {
    if cs == [] then [] else [AsStored(cs[0])] + StoreAll(cs[1..])
  }

  /** Every field the migration does not rewrite is carried over. */
  predicate CarriedOver(s: StoredContract, c: Contract) {
    && c.id == s.id && c.brandName == s.brandName && c.branchName == s.branchName
    && c.contractDate == s.contractDate && c.constructionDate == s.constructionDate
    && c.collectionDate == s.collectionDate && c.salesAmount == s.salesAmount
    && c.totalPurchaseAmount == s.totalPurchaseAmount && c.expenses == s.expenses
    && c.salesperson == s.salesperson
  }

  /** An old record's stored payments are dropped: a positive down payment
      becomes the only payment, dated on the contract date, and otherwise
      there is none. What was paid and the balance are kept, and every other
      field is carried over. */
  lemma MigrateKeepsBalance(s: StoredContract)
    requires s.downPayment.Some?
    ensures s.downPayment.value > 0 ==>
              Migrate(s).payments == [Payment("payment-" + s.id + "-migrated", s.contractDate, s.downPayment.value)]
    ensures s.downPayment.value <= 0 ==> Migrate(s).payments == []
    ensures TotalPaid(Migrate(s)) == if s.downPayment.value > 0 then s.downPayment.value else 0
    ensures s.downPayment.value >= 0 ==> Balance(Migrate(s)) == s.salesAmount - s.downPayment.value
    ensures CarriedOver(s, Migrate(s))
  {
    var ps := Migrate(s).payments;
    if s.downPayment.value > 0 {
      assert ps[..0] == [];
      assert TotalPaid(Migrate(s)) == SumOf(ps[..0], PaymentAmount) + ps[0].amount;
    }
  }

  /** A record without a down payment keeps its stored payments, or gets an
      empty list when it has none; every other field is carried over. */
  lemma MigrateWithoutDownPayment(s: StoredContract)
    requires s.downPayment.None?
    ensures s.payments.Some? ==> Migrate(s).payments == s.payments.value
    ensures s.payments.None? ==> Migrate(s).payments == []
    ensures CarriedOver(s, Migrate(s))
  {
  }

  /** Storing a migrated list and loading it again changes nothing, and the
      second load has nothing left to save. */
  lemma {:induction false} MigrateIdempotent(ss: seq<StoredContract>)
    ensures MigrateAll(StoreAll(MigrateAll(ss))) == MigrateAll(ss)
    ensures !NeedsSave(StoreAll(MigrateAll(ss)))
  {
    var cs := MigrateAll(ss);
    assert forall i :: 0 <= i < |cs| ==> Migrate(AsStored(cs[i])) == cs[i];
  }

  /** A list already in the current format loads as it was stored. */
  lemma {:induction false} CurrentFormatLoadsUnchanged(cs: seq<Contract>)
    ensures MigrateAll(StoreAll(cs)) == cs
    ensures !NeedsSave(StoreAll(cs))
  {
    assert forall i :: 0 <= i < |cs| ==> Migrate(AsStored(cs[i])) == cs[i];
  }

  // ---- The CSV export ----

  const ContractHeader: seq<string> := [
    "contract_id", "brand_name", "branch_name", "contract_date", "construction_date", "collection_date",
    "sales_amount", "total_paid_amount", "balance", "total_purchase_amount", "profit", "salesperson"]

  /** One exported line's values. */
  function ContractRow(c: Contract): seq<CsvValue> {
    [Str(c.id), Str(c.brandName), Str(c.branchName), Str(c.contractDate), Str(c.constructionDate),
     Str(c.collectionDate.GetOr("")),
     Num(c.salesAmount), Num(TotalPaid(c)), Num(Balance(c)), Num(c.totalPurchaseAmount), Num(ProfitOf(c)),
     Str(c.salesperson)]
  }

  function ContractRows(cs: seq<Contract>): (r: seq<seq<CsvValue>>)
    ensures |r| == |cs|
    ensures forall i :: 0 <= i < |cs| ==> r[i] == ContractRow(cs[i])
  {
    if cs == [] then [] else [ContractRow(cs[0])] + ContractRows(cs[1..])
  }

  /** The text of `contracts_backup.csv`. */
  function ContractsCsv(cs: seq<Contract>): string {
    Document(ContractHeader, ContractRows(cs))
  }

  lemma ContractHeaderPlain()
    ensures forall i :: 0 <= i < |ContractHeader| ==> !NeedsQuoting(ContractHeader[i])
  {
    forall i, k | 0 <= i < |ContractHeader| && 0 <= k < |ContractHeader[i]|
      ensures !IsSpecial(ContractHeader[i][k])
    {
    }
  }

  /** A decoded export line gives back each contract's fields, with the paid
      total, the balance and the profit computed from the contract. */
  lemma ContractRowReadBack(c: Contract)
    ensures var r := Cells(ContractRow(c));
      && |r| == 12
      && r[0] == c.id && r[1] == c.brandName && r[2] == c.branchName
      && r[3] == c.contractDate && r[4] == c.constructionDate && r[11] == c.salesperson
      && (r[5] != "" <==> HasCollectionDate(c))
      && (HasCollectionDate(c) ==> r[5] == c.collectionDate.value)
      && IntValue(r[6]) == Some(c.salesAmount)
      && IntValue(r[7]) == Some(TotalPaid(c))
      && IntValue(r[8]) == Some(c.salesAmount - TotalPaid(c))
      && IntValue(r[9]) == Some(c.totalPurchaseAmount)
      && IntValue(r[10]) == Some(c.salesAmount - c.totalPurchaseAmount)
  {
    var row := ContractRow(c);
    assert Cells(row)[5] == CellText(Str(c.collectionDate.GetOr("")));
    IntToStringRoundTrip(c.salesAmount);
    IntToStringRoundTrip(TotalPaid(c));
    IntToStringRoundTrip(Balance(c));
    IntToStringRoundTrip(c.totalPurchaseAmount);
    IntToStringRoundTrip(ProfitOf(c));
  }

  /** Decoding the export gives the header, then one twelve-field line per
      contract, in list order. */
  lemma ContractsCsvRoundTrip(cs: seq<Contract>)
    ensures Decode(ContractsCsv(cs)) == Some([ContractHeader] + Table(ContractRows(cs)))
    ensures forall i :: 0 <= i < |cs| ==> Table(ContractRows(cs))[i] == Cells(ContractRow(cs[i]))
  {
    ContractHeaderPlain();
    ContractRowsNotEmpty(cs);
    DocumentRoundTrip(ContractHeader, ContractRows(cs));
  }

  lemma ContractRowsNotEmpty(cs: seq<Contract>)
    ensures NoEmptyRow(ContractRows(cs))
  {
    forall i | 0 <= i < |cs| ensures |ContractRows(cs)[i]| >= 1 {
      assert ContractRows(cs)[i] == ContractRow(cs[i]);
    }
  }

  // ---- The contract list ----

  /** The screen's list of contracts, the edit dialog's state, and what the
      contract store holds. */
  class ContractBook {
    var contracts: seq<Contract>
    var editing: Option<Contract>
    var editModalOpen: bool
    var stored: seq<StoredContract>

    /** The store is in the current format, and loading it again shows the
        list on screen. */
    predicate Valid()
      reads this
    {
      !NeedsSave(stored) && MigrateAll(stored) == contracts
    }

    /** The list as first loaded: the stored records, migrated; the store is
        rewritten only if some record was in the old format. */
    constructor (store: seq<StoredContract>)
      ensures contracts == MigrateAll(store)
      ensures stored == if NeedsSave(store) then StoreAll(MigrateAll(store)) else store
      ensures editing == None && !editModalOpen
      ensures Valid()
    {
      var migrated := MigrateAll(store);
      contracts := migrated;
      stored := store;
      if NeedsSave(store) {
        stored := StoreAll(migrated);
        MigrateIdempotent(store);
      }
      editing := None;
      editModalOpen := false;
    }

    /** Writing the list to the store keeps `Valid`. */
    method Save()
      modifies this
      ensures stored == StoreAll(contracts)
      ensures contracts == old(contracts) && editing == old(editing) && editModalOpen == old(editModalOpen)
      ensures Valid()
    {
      stored := StoreAll(contracts);
      CurrentFormatLoadsUnchanged(contracts);
    }

    /** `addContract`: the new contract goes first, and the list is saved. */
    method AddContract(c: Contract)
      modifies this
      ensures contracts == [c] + old(contracts) && stored == StoreAll(contracts)
      ensures editing == old(editing) && editModalOpen == old(editModalOpen)
      ensures Valid()
    {
      contracts := [c] + contracts;
      Save();
    }

    method OpenEditModal(c: Contract)
      modifies this
      ensures contracts == old(contracts) && stored == old(stored)
      ensures editing == Some(c) && editModalOpen
    {
      editing := Some(c);
      editModalOpen := true;
    }

    method CloseEditModal()
      modifies this
      ensures contracts == old(contracts) && stored == old(stored)
      ensures editing == None && !editModalOpen
    {
      editing := None;
      editModalOpen := false;
    }

    /** `handleUpdateContract`: replace by id, save, then close the dialog. */
    method UpdateContract(updated: Contract)
      modifies this
      ensures contracts == Receivables.UpdateContract(old(contracts), updated) && stored == StoreAll(contracts)
      ensures editing == None && !editModalOpen
      ensures Valid()
    {
      contracts := Receivables.UpdateContract(contracts, updated);
      Save();
      CloseEditModal();
    }

    /** `handleDeleteContract`: drop every contract with the id and save, once
        confirmed. */
    method DeleteContract(id: string, confirmed: bool)
      modifies this
      ensures contracts == if confirmed then RemoveById(old(contracts), ContractId, id) else old(contracts)
      ensures stored == if confirmed then StoreAll(contracts) else old(stored)
      ensures editing == old(editing) && editModalOpen == old(editModalOpen)
      ensures old(Valid()) ==> Valid()
    {
      if confirmed {
        contracts := RemoveById(contracts, ContractId, id);
        Save();
      }
    }

    /** `handleFileChange`: restore the whole list from a JSON backup, and
        save it when it was taken. */
    method Import(confirmed: bool, payload: Payload<Contract>) returns (notice: Notice)
      modifies this
      ensures contracts == ApplyImport(old(contracts), confirmed, payload)
      ensures stored == if confirmed && payload.ArrayOf? then StoreAll(contracts) else old(stored)
      ensures notice == ImportNotice(confirmed, payload)
      ensures editing == old(editing) && editModalOpen == old(editModalOpen)
      ensures old(Valid()) ==> Valid()
    {
      contracts := ApplyImport(contracts, confirmed, payload);
      if confirmed && payload.ArrayOf? {
        Save();
      }
      notice := ImportNotice(confirmed, payload);
    }

    /** `handleExportCsv`: the text of the downloaded file. */
    function ExportCsv(): string
      reads this
    {
      ContractsCsv(contracts)
    }
  }

  /** A confirmed delete removes the contract and nothing else, in order. */
  lemma DeleteRemovesOnlyThatId(cs: seq<Contract>, id: string)
    ensures forall c :: c in RemoveById(cs, ContractId, id) <==> c in cs && c.id != id
    ensures (forall c :: c in cs ==> c.id != id) ==> RemoveById(cs, ContractId, id) == cs
  {
    FilterCount(cs, x => ContractId(x) != id);
    if forall c :: c in cs ==> c.id != id {
      RemoveByIdAbsent(cs, ContractId, id);
    }
  }
}
