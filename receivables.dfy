/** The receivables screen (components/receivables/ReceivablesManagement.tsx):
    the outstanding list, earliest construction date first, its colour tiers,
    and writing an edited contract back into the list. */
module Receivables {
  import opened Types
  import opened Seqs
  import opened Ledger
  import opened Sorting

  /** The sort key `new Date(constructionDate).getTime()`, as a day number. A
      date that does not parse is given day 0 here (see README, Left out). */
  function ConstructionDay(parse: string -> ParsedDate, r: Receivable): int {
    match parse(r.contract.constructionDate)
    case Valid(_, _, day) => day
    case Invalid => 0
  }

  function ConstructionDayOf(parse: string -> ParsedDate): Receivable -> int {
    r => ConstructionDay(parse, r)
  }

  /** `outstandingContracts`: balances attached, settled or collected contracts
      dropped, earliest construction date first. */
  function OutstandingContracts(all: seq<Contract>, parse: string -> ParsedDate): seq<Receivable> {
    SortBy(Outstanding(all), ConstructionDayOf(parse))
  }

  /** The list holds exactly the outstanding contracts, each once per copy in
      the input and each with its balance; it is sorted by construction day
      and keeps the input order among contracts built the same day. */
  lemma OutstandingContractsFacts(all: seq<Contract>, parse: string -> ParsedDate)
    ensures multiset(OutstandingContracts(all, parse)) == multiset(Outstanding(all))
    ensures forall c :: Receivable(c, Balance(c)) in OutstandingContracts(all, parse) <==> c in all && IsOutstanding(c)
    ensures forall x :: x in OutstandingContracts(all, parse) ==> x.contract in all && x.balance == Balance(x.contract)
    ensures SortedBy(OutstandingContracts(all, parse), ConstructionDayOf(parse))
    ensures forall d :: Select(OutstandingContracts(all, parse), ConstructionDayOf(parse), d) ==
                        Select(Outstanding(all), ConstructionDayOf(parse), d)
  {
    var key := ConstructionDayOf(parse);
    SortByPermutes(Outstanding(all), key);
    SortBySorted(Outstanding(all), key);
    forall d ensures Select(SortBy(Outstanding(all), key), key, d) == Select(Outstanding(all), key, d) {
      SortByStable(Outstanding(all), key, d);
    }
    forall x ensures x in OutstandingContracts(all, parse) <==> x in Outstanding(all) {
      assert x in OutstandingContracts(all, parse) <==> x in multiset(OutstandingContracts(all, parse));
    }
  }

  /** A contract with a collection date never shows, whatever it still owes. */
  lemma CollectedNeverListed(all: seq<Contract>, parse: string -> ParsedDate, c: Contract)
    requires HasCollectionDate(c)
    ensures forall x :: x in OutstandingContracts(all, parse) ==> x.contract != c
  {
    OutstandingContractsFacts(all, parse);
  }

  /** The colour classes of `getOverdueColor`. */
  datatype Tier = Red | Orange | Yellow

  /** `getOverdueColor`: over 60 days red, over 30 orange, otherwise yellow. */
  function OverdueTier(days: int): (t: Tier)
    ensures t == Red <==> days > 60
    ensures t == Orange <==> 30 < days <= 60
    ensures t == Yellow <==> days <= 30
  {
    if days > 60 then Red else if days > 30 then Orange else Yellow
  }

  /** The class text each tier stands for. */
  function TierClass(t: Tier): string {
    match t
    case Red => "text-red-600 font-bold"
    case Orange => "text-orange-500 font-semibold"
    case Yellow => "text-yellow-600"
  }

  function Severity(t: Tier): int {
    match t
    case Yellow => 0
    case Orange => 1
    case Red => 2
  }

  /** More days overdue never gives a milder colour. */
  lemma TierMonotone(d1: int, d2: int)
    requires d1 <= d2
    ensures Severity(OverdueTier(d1)) <= Severity(OverdueTier(d2))
  {
  }

  /** `handleUpdateContract`: every contract with the edited contract's id is
      replaced by it; the rest and the length stay as they were. */
  function UpdateContract(all: seq<Contract>, updated: Contract): (r: seq<Contract>)
    ensures |r| == |all|
    ensures forall i :: 0 <= i < |all| ==> (all[i].id == updated.id ==> r[i] == updated)
    ensures forall i :: 0 <= i < |all| ==> (all[i].id != updated.id ==> r[i] == all[i])
  {
    ReplaceById(all, ContractId, updated)
  }

  /** Saving the same edit twice is saving it once. */
  lemma UpdateContractIdempotent(all: seq<Contract>, updated: Contract)
    ensures UpdateContract(UpdateContract(all, updated), updated) == UpdateContract(all, updated)
  {
  }

  /** An edit whose id is not in the list changes nothing. */
  lemma UpdateContractAbsent(all: seq<Contract>, updated: Contract)
    requires forall c :: c in all ==> c.id != updated.id
    ensures UpdateContract(all, updated) == all
  {
    assert forall i :: 0 <= i < |all| ==> all[i] in all;
  }
}
