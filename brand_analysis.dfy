/** The per-brand profit and loss summary (components/analysis/BrandAnalysis.tsx):
    an entry for every registered brand name and for every other name a
    contract uses, each with the brand's contracts, their count, their summed
    profit and their average sales amount. */
module BrandAnalysis {
  import opened Types
  import opened Seqs
  import opened Ledger

  /** `BrandAnalysisData`. The average is exact here; the screen's value is a
      floating-point quotient. */
  datatype BrandStats = BrandStats(
    contractCount: int,
    cumulativeProfit: int,
    averageContractValue: real,
    contracts: seq<Contract>)

  const Empty: BrandStats := BrandStats(0, 0, 0.0, [])

  /** Adds a key to an object's key list unless it is already there. */
  function AddName(ds: seq<string>, n: string): seq<string> {
    if n in ds then ds else ds + [n]
  }

  lemma AddNameFacts(ds: seq<string>, n: string)
    ensures forall x :: x in AddName(ds, n) <==> x in ds || x == n
    ensures NoDuplicates(ds) ==> NoDuplicates(AddName(ds, n))
  {
  }

  /** The keys after the `forEach` over the brands. */
  function RegisteredOrder(brands: seq<Brand>): seq<string> {
    if brands == [] then [] else AddName(RegisteredOrder(brands[..|brands| - 1]), brands[|brands| - 1].name)
  }

  /** The keys after both `forEach` loops, in creation order. */
  function KeyOrder(brands: seq<Brand>, xs: seq<Contract>): seq<string> {
    if xs == [] then RegisteredOrder(brands)
    else AddName(KeyOrder(brands, xs[..|xs| - 1]), xs[|xs| - 1].brandName)
  }

  /** An entry as the contracts loop leaves it, one contract at a time. */
  function Accumulated(xs: seq<Contract>, n: string): BrandStats {
    if xs == [] then Empty
    else
      var a, c := Accumulated(xs[..|xs| - 1], n), xs[|xs| - 1];
      if c.brandName == n then
        a.(contracts := a.contracts + [c], contractCount := a.contractCount + 1,
           cumulativeProfit := a.cumulativeProfit + (c.salesAmount - c.totalPurchaseAmount))
      else a
  }

  /** An entry after the last loop sets its average. */
  function Finished(xs: seq<Contract>, n: string): BrandStats {
    var a := Accumulated(xs, n);
    if a.contractCount > 0 then
      a.(averageContractValue := SumOf(a.contracts, SalesOf) as real / a.contractCount as real)
    else a
  }

  /** `brandAnalysisData`: `names` lists the keys of `analysis` in the order
      they were created, which is the order `Object.keys` reports. */
  method Analyze(brands: seq<Brand>, contracts: seq<Contract>)
    returns (names: seq<string>, analysis: map<string, BrandStats>)
    ensures names == KeyOrder(brands, contracts)
    ensures forall n :: n in analysis <==> n in names
    ensures forall n :: n in analysis ==> analysis[n] == Finished(contracts, n)
  {
    names, analysis := RegisterBrands(brands);
    names, analysis := TallyContracts(brands, contracts, names, analysis);
    analysis := SetAverages(contracts, names, analysis);
  }

  /** The `forEach` over the brands: an empty entry per registered name. */
  method RegisterBrands(brands: seq<Brand>) returns (names: seq<string>, analysis: map<string, BrandStats>)
    ensures names == RegisteredOrder(brands)
    ensures forall n :: n in analysis <==> n in names
    ensures forall n :: n in analysis ==> analysis[n] == Empty
  {
    analysis, names := map[], [];
    for i := 0 to |brands|
      invariant names == RegisteredOrder(brands[..i])
      invariant forall n :: n in analysis <==> n in names
      invariant forall n :: n in analysis ==> analysis[n] == Empty
    {
      var n := brands[i].name;
      if n !in analysis {
        names := names + [n];
      }
      analysis := analysis[n := Empty];
      assert brands[..i + 1][..i] == brands[..i];
    }
    assert brands[..|brands|] == brands;
  }

  /** The `forEach` over the contracts: an entry is created for a name not
      seen yet, then the contract is pushed, counted and its profit added. */
  method TallyContracts(brands: seq<Brand>, contracts: seq<Contract>, names0: seq<string>, analysis0: map<string, BrandStats>)
    returns (names: seq<string>, analysis: map<string, BrandStats>)
    requires names0 == RegisteredOrder(brands)
    requires forall n :: n in analysis0 <==> n in names0
    requires forall n :: n in analysis0 ==> analysis0[n] == Empty
    ensures names == KeyOrder(brands, contracts)
    ensures forall n :: n in analysis <==> n in names
    ensures forall n :: n in analysis ==> analysis[n] == Accumulated(contracts, n)
  {
    names, analysis := names0, analysis0;
    for j := 0 to |contracts|
      invariant names == KeyOrder(brands, contracts[..j])
      invariant forall n :: n in analysis <==> n in names
      invariant forall n :: n in analysis ==> analysis[n] == Accumulated(contracts[..j], n)
      invariant forall n :: n !in analysis ==> Accumulated(contracts[..j], n) == Empty
    {
      var c := contracts[j];
      assert contracts[..j + 1] == contracts[..j] + [c];
      assert (contracts[..j] + [c])[..j] == contracts[..j];
      if c.brandName !in analysis {
        analysis := analysis[c.brandName := Empty];
        names := names + [c.brandName];
      }
      var a := analysis[c.brandName];
      analysis := analysis[c.brandName := a.(contracts := a.contracts + [c], contractCount := a.contractCount + 1,
                                             cumulativeProfit := a.cumulativeProfit + (c.salesAmount - c.totalPurchaseAmount))];
    }
    assert contracts[..|contracts|] == contracts;
  }

  /** The `for...in` loop: an entry with contracts gets its average sales amount. */
  method SetAverages(contracts: seq<Contract>, names: seq<string>, analysis0: map<string, BrandStats>)
    returns (analysis: map<string, BrandStats>)
    requires forall n :: n in analysis0 <==> n in names
    requires forall n :: n in analysis0 ==> analysis0[n] == Accumulated(contracts, n)
    ensures forall n :: n in analysis <==> n in names
    ensures forall n :: n in analysis ==> analysis[n] == Finished(contracts, n)
  {
    analysis := analysis0;
    for t := 0 to |names|
      invariant forall n :: n in analysis <==> n in names
      invariant forall n :: n in analysis ==>
        analysis[n] == if n in names[..t] then Finished(contracts, n) else Accumulated(contracts, n)
    {
      var n := names[t];
      var brandData := analysis[n];
      if brandData.contractCount > 0 {
        var totalSales := SumOf(brandData.contracts, SalesOf);
        analysis := analysis[n := brandData.(averageContractValue := totalSales as real / brandData.contractCount as real)];
      }
      assert names[..t + 1] == names[..t] + [n];
    }
    assert names[..|names|] == names;
  }

  // ---- What the entries hold ----

  function One(c: Contract): int { 1 }

  lemma {:induction false} AccumulatedIsSelect(xs: seq<Contract>, n: string)
    ensures Accumulated(xs, n) ==
      BrandStats(|Select(xs, BrandNameOf, n)|, SumWhere(xs, BrandNameOf, ProfitOf, n), 0.0, Select(xs, BrandNameOf, n))
  {
    if xs != [] {
      var init, c := xs[..|xs| - 1], xs[|xs| - 1];
      AccumulatedIsSelect(init, n);
      SelectSnoc(init, c, BrandNameOf, n);
      SumWhereSnoc(init, c, BrandNameOf, ProfitOf, n);
      assert xs == init + [c];
    }
  }

  /** An entry holds the brand's contracts in input order, their count and
      their total profit; the average is their total sales over the count, and
      0 for a brand without contracts. */
  lemma FinishedMeaning(xs: seq<Contract>, n: string)
    ensures Finished(xs, n).contracts == Select(xs, BrandNameOf, n)
    ensures Finished(xs, n).contractCount == |Select(xs, BrandNameOf, n)|
    ensures Finished(xs, n).cumulativeProfit == SumWhere(xs, BrandNameOf, ProfitOf, n)
    ensures Finished(xs, n).averageContractValue ==
      if Finished(xs, n).contractCount > 0
      then SumWhere(xs, BrandNameOf, SalesOf, n) as real / Finished(xs, n).contractCount as real
      else 0.0
  {
    AccumulatedIsSelect(xs, n);
  }

  /** A brand name no contract uses gets the all-zero entry. */
  lemma UnusedBrandIsEmpty(xs: seq<Contract>, n: string)
    requires forall c :: c in xs ==> c.brandName != n
    ensures Finished(xs, n) == Empty
  {
    AccumulatedIsSelect(xs, n);
    SumWhereAbsent(xs, BrandNameOf, ProfitOf, n);
  }

  /** The keys: every registered name and every name a contract uses, each
      once (registered duplicates collapse), and nothing else. */
  lemma {:induction false} RegisteredOrderFacts(brands: seq<Brand>)
    ensures NoDuplicates(RegisteredOrder(brands))
    ensures forall n :: n in RegisteredOrder(brands) <==> exists b :: b in brands && b.name == n
  {
    if brands != [] {
      var init, last := brands[..|brands| - 1], brands[|brands| - 1];
      RegisteredOrderFacts(init);
      AddNameFacts(RegisteredOrder(init), last.name);
      assert brands == init + [last];
      forall n ensures n in RegisteredOrder(brands) <==> exists b :: b in brands && b.name == n {
        if exists b :: b in brands && b.name == n {
          var b :| b in brands && b.name == n;
          if b != last {
            assert b in init;
          }
        }
        if n in RegisteredOrder(init) {
          var b :| b in init && b.name == n;
          assert b in brands;
        }
      }
    }
  }

  lemma {:induction false} KeyOrderFacts(brands: seq<Brand>, xs: seq<Contract>)
    ensures NoDuplicates(KeyOrder(brands, xs))
    ensures forall n :: n in KeyOrder(brands, xs) <==>
      (exists b :: b in brands && b.name == n) || (exists c :: c in xs && c.brandName == n)
  {
    if xs == [] {
      RegisteredOrderFacts(brands);
    } else {
      var init, last := xs[..|xs| - 1], xs[|xs| - 1];
      KeyOrderFacts(brands, init);
      AddNameFacts(KeyOrder(brands, init), last.brandName);
      assert xs == init + [last];
      forall n | n in KeyOrder(brands, xs)
        ensures (exists b :: b in brands && b.name == n) || (exists c :: c in xs && c.brandName == n)
      {
        if n == last.brandName {
          assert last in xs;
        } else if exists c :: c in init && c.brandName == n {
          var c :| c in init && c.brandName == n;
          assert c in xs;
        }
      }
      forall c | c in xs ensures c.brandName in KeyOrder(brands, xs) {
        if c != last {
          assert c in init;
        }
      }
    }
  }

  /** Every registered brand has an entry, and every name a contract uses has
      one, registered or not. */
  lemma EveryNameHasAnEntry(brands: seq<Brand>, xs: seq<Contract>)
    ensures forall b :: b in brands ==> b.name in KeyOrder(brands, xs)
    ensures forall c :: c in xs ==> c.brandName in KeyOrder(brands, xs)
  {
    KeyOrderFacts(brands, xs);
  }

  /** The counts over the entries, in key order. */
  function CountOver(ns: seq<string>, xs: seq<Contract>): int {
    if ns == [] then 0 else Finished(xs, ns[0]).contractCount + CountOver(ns[1..], xs)
  }

  lemma {:induction false} CountOverIsSumKeyed(ns: seq<string>, xs: seq<Contract>)
    ensures CountOver(ns, xs) == SumKeyed(ns, xs, BrandNameOf, One)
  {
    if ns != [] {
      CountOverIsSumKeyed(ns[1..], xs);
      AccumulatedIsSelect(xs, ns[0]);
      SumOfOne(Select(xs, BrandNameOf, ns[0]), One);
    }
  }

  /** Every contract is counted under exactly one entry: the counts add up to
      the number of contracts. */
  lemma CountsAddUp(brands: seq<Brand>, xs: seq<Contract>)
    ensures CountOver(KeyOrder(brands, xs), xs) == |xs|
  {
    var ns := KeyOrder(brands, xs);
    KeyOrderFacts(brands, xs);
    CountOverIsSumKeyed(ns, xs);
    SumKeyedIsSumIn(ns, xs, BrandNameOf, One);
    SumInAll(xs, BrandNameOf, One, ns);
    SumOfOne(xs, One);
  }
}
