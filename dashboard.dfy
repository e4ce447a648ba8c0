/** The dashboard's figures (components/dashboard/Dashboard.tsx): the
    contract filter, the sales and profit summary, the twelve-month table,
    the sales share per brand and the receivables panel. */
module Dashboard {
  import opened Types
  import opened Seqs
  import opened Ledger
  import opened Sorting

  /** A drop-down choice: `'all'` or one value. */
  datatype Selector<T> = All | Only(value: T)

  /** The three drop-downs: brand name, year, and month numbered 1 to 12. */
  datatype Filters = Filters(brand: Selector<string>, year: Selector<int>, month: Selector<int>)

  /** One contract against the drop-downs. A contract date that does not parse
      has no year or month, so it passes only where `'all'` is chosen. */
  predicate Passes(f: Filters, parse: string -> ParsedDate, c: Contract) {
    var d := parse(c.contractDate);
    && (f.year.All? || (d.Valid? && d.year == f.year.value))
    && (f.month.All? || (d.Valid? && d.month + 1 == f.month.value))
    && (f.brand.All? || c.brandName == f.brand.value)
  }

  function PassesOf(f: Filters, parse: string -> ParsedDate): Contract -> bool {
    c => Passes(f, parse, c)
  }

  /** `filteredContracts`: a contract is kept exactly when each drop-down is
      `'all'` or matches it, and the kept contracts stay in list order. */
  function FilterContracts(all: seq<Contract>, f: Filters, parse: string -> ParsedDate): (r: seq<Contract>)
    ensures forall c :: c in r <==>
      && c in all
      && (f.year.All? || (parse(c.contractDate).Valid? && parse(c.contractDate).year == f.year.value))
      && (f.month.All? || (parse(c.contractDate).Valid? && parse(c.contractDate).month + 1 == f.month.value))
      && (f.brand.All? || c.brandName == f.brand.value)
    ensures forall c :: multiset(r)[c] <= multiset(all)[c]
  {
    FilterCount(all, PassesOf(f, parse));
    Filter(all, PassesOf(f, parse))
  }

  /** With every drop-down on `'all'` nothing is filtered out. */
  lemma FilterAllSelected(all: seq<Contract>, parse: string -> ParsedDate)
    ensures FilterContracts(all, Filters(All, All, All), parse) == all
  {
    FilterAll(all, PassesOf(Filters(All, All, All), parse));
  }

  /** The filter keeps relative order: it distributes over concatenation. */
  lemma FilterContractsConcat(a: seq<Contract>, b: seq<Contract>, f: Filters, parse: string -> ParsedDate)
    ensures FilterContracts(a + b, f, parse) == FilterContracts(a, f, parse) + FilterContracts(b, f, parse)
  {
    FilterConcat(a, b, PassesOf(f, parse));
  }

  // ---- Summary ----

  datatype Summary = Summary(totalSales: int, totalProfit: int)

  /** `totalSales` and `totalProfit`, the second computed as sales less purchases. */
  function Summarize(xs: seq<Contract>): (r: Summary)
    ensures r.totalSales == SumOf(xs, SalesOf)
    ensures r.totalProfit == SumOf(xs, ProfitOf)
  {
    var totalSales := SumOf(xs, SalesOf);
    var totalPurchases := SumOf(xs, PurchasesOf);
    TotalProfit(xs);
    Summary(totalSales, totalSales - totalPurchases)
  }

  // ---- Monthly table ----

  const MonthNames: seq<string> := ["1월", "2월", "3월", "4월", "5월", "6월", "7월", "8월", "9월", "10월", "11월", "12월"]

  datatype MonthRow = MonthRow(name: string, sales: int, purchases: int, profit: int)
  datatype Bucket = Bucket(sales: int, purchases: int, profit: int)

  /** The bucket a contract goes to: its month index, or -1 for a date that
      does not parse (`monthNames[NaN]` is `undefined`, a key none of the
      twelve rows reads). */
  function MonthKey(parse: string -> ParsedDate, c: Contract): int {
    match parse(c.contractDate)
    case Valid(_, m, _) => m
    case Invalid => -1
  }

  function MonthKeyOf(parse: string -> ParsedDate): Contract -> int {
    c => MonthKey(parse, c)
  }

  /** The totals of the contracts in bucket `m`. */
  function BucketOf(xs: seq<Contract>, key: Contract -> int, m: int): Bucket {
    Bucket(SumWhere(xs, key, SalesOf, m), SumWhere(xs, key, PurchasesOf, m), SumWhere(xs, key, ProfitOf, m))
  }

  /** The twelve rows of the monthly chart, January first; each row's profit
      is its sales less its purchases. */
  function MonthlyTable(xs: seq<Contract>, parse: string -> ParsedDate): (r: seq<MonthRow>)
    ensures |r| == 12
    ensures forall i :: 0 <= i < 12 ==> r[i].name == MonthNames[i] && r[i].profit == r[i].sales - r[i].purchases
  {
    var key := MonthKeyOf(parse);
    GroupProfit(xs, key);
    seq(12, i requires 0 <= i < 12 =>
      var b := BucketOf(xs, key, i);
      MonthRow(MonthNames[i], b.sales, b.purchases, b.profit))
  }

  /** What the chart reads for key `m`: `monthlyData[m]?.sales || 0` and so on. */
  function Lookup(data: map<int, Bucket>, m: int): Bucket {
    if m in data then data[m] else Bucket(0, 0, 0)
  }

  /** The `forEach` over the filtered contracts that fills `monthlyData`. */
  method FillMonthlyData(xs: seq<Contract>, key: Contract -> int) returns (monthlyData: map<int, Bucket>)
    ensures forall m :: Lookup(monthlyData, m) == Accumulated(xs, key, m)
  {
    monthlyData := map[];
    for i := 0 to |xs|
      invariant forall m :: Lookup(monthlyData, m) == Accumulated(xs[..i], key, m)
    {
      var c := xs[i];
      ghost var before := monthlyData;
      var m := key(c);
      if m !in monthlyData {
        monthlyData := monthlyData[m := Bucket(0, 0, 0)];
      }
      var b := monthlyData[m];
      monthlyData := monthlyData[m := Bucket(b.sales + c.salesAmount, b.purchases + c.totalPurchaseAmount,
                                             b.profit + (c.salesAmount - c.totalPurchaseAmount))];
      assert forall m' :: Lookup(monthlyData, m') == AddTo(Lookup(before, m'), key, c, m');
      assert xs[..i + 1][..i] == xs[..i];
    }
    assert xs[..|xs|] == xs;
  }

  /** The monthly chart data: the buckets filled, then the `map` over the twelve month names. */
  method MonthlyRollup(xs: seq<Contract>, parse: string -> ParsedDate) returns (rows: seq<MonthRow>)
    ensures rows == MonthlyTable(xs, parse)
  {
    var monthlyData := FillMonthlyData(xs, MonthKeyOf(parse));
    rows := [];
    for i := 0 to 12
      invariant rows == MonthlyTable(xs, parse)[..i]
    {
      var b := Lookup(monthlyData, i);
      AccumulatedSums(xs, MonthKeyOf(parse), i);
      rows := rows + [MonthRow(MonthNames[i], b.sales, b.purchases, b.profit)];
    }
  }

  /** A bucket after one more contract: the contract's figures are added to
      its own month's bucket only. */
  function AddTo(b: Bucket, key: Contract -> int, c: Contract, m: int): Bucket {
    if key(c) == m then Bucket(b.sales + c.salesAmount, b.purchases + c.totalPurchaseAmount,
                               b.profit + (c.salesAmount - c.totalPurchaseAmount))
    else b
  }

  /** Bucket `m` as the loop builds it, one contract at a time. */
  function Accumulated(xs: seq<Contract>, key: Contract -> int, m: int): Bucket {
    if xs == [] then Bucket(0, 0, 0) else AddTo(Accumulated(xs[..|xs| - 1], key, m), key, xs[|xs| - 1], m)
  }

  /** Adding contract by contract gives the totals of the contracts in the bucket. */
  lemma {:induction false} AccumulatedSums(xs: seq<Contract>, key: Contract -> int, m: int)
    ensures Accumulated(xs, key, m) == BucketOf(xs, key, m)
  {
    if xs != [] {
      var init := xs[..|xs| - 1];
      AccumulatedSums(init, key, m);
      BucketSnoc(init, xs[|xs| - 1], key, m);
      assert xs == init + [xs[|xs| - 1]];
    }
  }

  lemma BucketSnoc(xs: seq<Contract>, c: Contract, key: Contract -> int, m: int)
    ensures BucketOf(xs + [c], key, m) == AddTo(BucketOf(xs, key, m), key, c, m)
  {
    var g := Select(xs, key, m);
    SelectSnoc(xs, c, key, m);
    if key(c) == m {
      assert Select(xs + [c], key, m) == g + [c];
      assert (g + [c])[..|g|] == g;
    } else {
      assert Select(xs + [c], key, m) == g;
    }
  }

  /** A month no contract falls in reports zero sales, purchases and profit. */
  lemma MonthlyEmptyMonth(xs: seq<Contract>, parse: string -> ParsedDate, i: int)
    requires 0 <= i < 12
    requires forall c :: c in xs ==> MonthKey(parse, c) != i
    ensures MonthlyTable(xs, parse)[i] == MonthRow(MonthNames[i], 0, 0, 0)
  {
    var key := MonthKeyOf(parse);
    SumWhereAbsent(xs, key, SalesOf, i);
    SumWhereAbsent(xs, key, PurchasesOf, i);
    SumWhereAbsent(xs, key, ProfitOf, i);
  }

  function RowSales(r: MonthRow): int { r.sales }

  /** `[lo, lo + 1, ..., hi - 1]`. */
  function Range(lo: int, hi: int): (r: seq<int>)
    ensures forall k :: k in r <==> lo <= k < hi
    ensures NoDuplicates(r)
    decreases hi - lo
  {
    if lo >= hi then []
    else
      var t := Range(lo + 1, hi);
      assert forall j :: 0 <= j < |t| ==> t[j] in t;
      [lo] + t
  }

  lemma {:induction false} MonthlySalesFrom(xs: seq<Contract>, parse: string -> ParsedDate, j: int)
    requires 0 <= j <= 12
    ensures SumOf(MonthlyTable(xs, parse)[j..], RowSales) == SumKeyed(Range(j, 12), xs, MonthKeyOf(parse), SalesOf)
    decreases 12 - j
  {
    var t := MonthlyTable(xs, parse);
    if j < 12 {
      MonthlySalesFrom(xs, parse, j + 1);
      assert t[j..] == [t[j]] + t[j + 1..];
      SumOfCons(t[j], t[j + 1..], RowSales);
      assert Range(j, 12)[1..] == Range(j + 1, 12);
    } else {
      assert t[j..] == [];
    }
  }

  /** A contract has a date that parses. */
  predicate Dated(parse: string -> ParsedDate, c: Contract) {
    parse(c.contractDate).Valid?
  }

  function DatedOf(parse: string -> ParsedDate): Contract -> bool {
    c => Dated(parse, c)
  }

  /** The twelve monthly sales add up to the sales of the contracts whose date
      parses, and so to `totalSales` when every date parses. */
  lemma MonthlySalesTotal(xs: seq<Contract>, parse: string -> ParsedDate)
    ensures SumOf(MonthlyTable(xs, parse), RowSales) == SumOf(Filter(xs, DatedOf(parse)), SalesOf)
    ensures (forall c :: c in xs ==> Dated(parse, c)) ==>
              SumOf(MonthlyTable(xs, parse), RowSales) == Summarize(xs).totalSales
  {
    var key, ds := MonthKeyOf(parse), Range(0, 12);
    MonthlySalesFrom(xs, parse, 0);
    assert MonthlyTable(xs, parse)[0..] == MonthlyTable(xs, parse);
    SumKeyedIsSumIn(ds, xs, key, SalesOf);
    SumInFilter(xs, key, SalesOf, ds, DatedOf(parse));
    if forall c :: c in xs ==> Dated(parse, c) {
      FilterAll(xs, DatedOf(parse));
    }
  }

  // ---- Sales share per brand ----

  /** One slice of the brand pie: a brand name and its raw sales total. */
  datatype Share = Share(name: string, value: int)

  function ShareName(s: Share): string { s.name }
  function ShareValue(s: Share): int { s.value }

  /** The brand names in the order a JavaScript object keeps its keys: order
      of first appearance. */
  function BrandOrder(xs: seq<Contract>): seq<string> {
    if xs == [] then []
    else
      var ds, n := BrandOrder(xs[..|xs| - 1]), xs[|xs| - 1].brandName;
      if n in ds then ds else ds + [n]
  }

  /** Each brand name of the contracts appears in the order once, and nothing else does. */
  lemma {:induction false} BrandOrderFacts(xs: seq<Contract>)
    ensures NoDuplicates(BrandOrder(xs))
    ensures forall c :: c in xs ==> c.brandName in BrandOrder(xs)
    ensures forall n :: n in BrandOrder(xs) ==> exists c :: c in xs && c.brandName == n
  {
    if xs != [] {
      var init, last := xs[..|xs| - 1], xs[|xs| - 1];
      BrandOrderFacts(init);
      assert xs == init + [last];
      forall n | n in BrandOrder(xs) ensures exists c :: c in xs && c.brandName == n {
        if n in BrandOrder(init) {
          var c :| c in init && c.brandName == n;
          assert c in xs;
        } else {
          assert last in xs;
        }
      }
    }
  }

  /** One share per name of `ds`, each the sales total of that brand. */
  function SharesOver(xs: seq<Contract>, ds: seq<string>): (r: seq<Share>)
    ensures |r| == |ds|
    ensures forall i :: 0 <= i < |r| ==> r[i] == Share(ds[i], SumWhere(xs, BrandNameOf, SalesOf, ds[i]))
  {
    seq(|ds|, i requires 0 <= i < |ds| => Share(ds[i], SumWhere(xs, BrandNameOf, SalesOf, ds[i])))
  }

  /** `Object.entries(brandData)`: one entry per distinct brand name of the
      filtered contracts, in order of first appearance, each holding the sum of
      that brand's sales amounts. */
  function ShareTable(xs: seq<Contract>): seq<Share> {
    SharesOver(xs, BrandOrder(xs))
  }

  /** A brand's total as the loop builds it, one contract at a time. */
  function BrandAccumulated(xs: seq<Contract>, n: string): int {
    if xs == [] then 0
    else BrandAccumulated(xs[..|xs| - 1], n) + if xs[|xs| - 1].brandName == n then xs[|xs| - 1].salesAmount else 0
  }

  lemma {:induction false} BrandAccumulatedSum(xs: seq<Contract>, n: string)
    ensures BrandAccumulated(xs, n) == SumWhere(xs, BrandNameOf, SalesOf, n)
  {
    if xs != [] {
      var init := xs[..|xs| - 1];
      BrandAccumulatedSum(init, n);
      SumWhereSnoc(init, xs[|xs| - 1], BrandNameOf, SalesOf, n);
      assert xs == init + [xs[|xs| - 1]];
    }
  }

  /** The `forEach` that fills `brandData`. `names` records the order in which
      keys were first created, which is the order `Object.entries` reports. A
      key still holding 0 is set to 0 again, as the falsy test does. */
  method FillBrandData(xs: seq<Contract>) returns (brandData: map<string, int>, names: seq<string>)
    ensures names == BrandOrder(xs)
    ensures forall n :: n in brandData <==> n in names
    ensures forall n :: n in brandData ==> brandData[n] == BrandAccumulated(xs, n)
  {
    brandData, names := map[], [];
    for i := 0 to |xs|
      invariant names == BrandOrder(xs[..i])
      invariant forall n :: n in brandData <==> n in names
      invariant forall n :: n in brandData ==> brandData[n] == BrandAccumulated(xs[..i], n)
      invariant forall n :: n !in brandData ==> BrandAccumulated(xs[..i], n) == 0
    {
      var c := xs[i];
      if c.brandName !in brandData || brandData[c.brandName] == 0 {
        if c.brandName !in brandData {
          names := names + [c.brandName];
        }
        brandData := brandData[c.brandName := 0];
      }
      brandData := brandData[c.brandName := brandData[c.brandName] + c.salesAmount];
      assert xs[..i + 1][..i] == xs[..i];
    }
    assert xs[..|xs|] == xs;
  }

  /** The brand distribution: `brandData` filled, then its entries listed. */
  method BrandDistribution(xs: seq<Contract>) returns (shares: seq<Share>)
    ensures shares == ShareTable(xs)
  {
    var brandData, names := FillBrandData(xs);
    shares := [];
    for j := 0 to |names|
      invariant |shares| == j
      invariant forall k :: 0 <= k < j ==> shares[k] == Share(names[k], SumWhere(xs, BrandNameOf, SalesOf, names[k]))
    {
      BrandAccumulatedSum(xs, names[j]);
      shares := shares + [Share(names[j], brandData[names[j]])];
    }
  }

  lemma {:induction false} SharesOverTotal(xs: seq<Contract>, ds: seq<string>)
    ensures SumOf(SharesOver(xs, ds), ShareValue) == SumKeyed(ds, xs, BrandNameOf, SalesOf)
  {
    if ds != [] {
      SharesOverTotal(xs, ds[1..]);
      var head := Share(ds[0], SumWhere(xs, BrandNameOf, SalesOf, ds[0]));
      assert SharesOver(xs, ds) == [head] + SharesOver(xs, ds[1..]);
      SumOfCons(head, SharesOver(xs, ds[1..]), ShareValue);
    }
  }

  /** The slices are raw sales sums: together they are exactly `totalSales`. */
  lemma BrandSharesTotal(xs: seq<Contract>)
    ensures SumOf(ShareTable(xs), ShareValue) == Summarize(xs).totalSales
  {
    var ds := BrandOrder(xs);
    BrandOrderFacts(xs);
    SharesOverTotal(xs, ds);
    SumKeyedIsSumIn(ds, xs, BrandNameOf, SalesOf);
    SumInAll(xs, BrandNameOf, SalesOf, ds);
  }

  /** One entry per brand name present in the filtered contracts. */
  lemma ShareTableNames(xs: seq<Contract>)
    ensures NoDuplicates(Keys(ShareTable(xs), ShareName))
    ensures forall c :: c in xs ==> c.brandName in Keys(ShareTable(xs), ShareName)
    ensures forall n :: n in Keys(ShareTable(xs), ShareName) ==> exists c :: c in xs && c.brandName == n
  {
    BrandOrderFacts(xs);
    assert Keys(ShareTable(xs), ShareName) == BrandOrder(xs);
  }

  // ---- Receivables panel ----

  /** An outstanding contract with its balance and its days overdue. */
  datatype Overdue = Overdue(contract: Contract, balance: int, daysOverdue: int)

  /** The sort key of `(a, b) => b.daysOverdue - a.daysOverdue`: most overdue first. */
  function MostOverdueFirst(o: Overdue): int { -o.daysOverdue }

  function Age(r: Receivable, parse: string -> ParsedDate, today: int): Overdue {
    Overdue(r.contract, r.balance, DaysOverdue(today, parse(r.contract.constructionDate)))
  }

  /** The second `map`: each receivable with its days overdue. */
  function Aged(rs: seq<Receivable>, parse: string -> ParsedDate, today: int): (r: seq<Overdue>)
    ensures |r| == |rs|
    ensures forall i :: 0 <= i < |rs| ==> r[i] == Age(rs[i], parse, today)
  {
    if rs == [] then [] else Aged(rs[..|rs| - 1], parse, today) + [Age(rs[|rs| - 1], parse, today)]
  }

  /** All outstanding contracts, most overdue first. */
  function OverdueRanking(all: seq<Contract>, parse: string -> ParsedDate, today: int): seq<Overdue> {
    SortBy(Aged(Outstanding(all), parse, today), MostOverdueFirst)
  }

  /** `topOverdue`: the first five of the ranking. */
  function TopOverdue(all: seq<Contract>, parse: string -> ParsedDate, today: int): seq<Overdue> {
    Take(OverdueRanking(all, parse, today), 5)
  }

  /** The receivables part of the aggregation. It runs over all contracts, not
      the filtered ones; `totalOutstanding` is accumulated inside the `map`. */
  method Receivables(all: seq<Contract>, parse: string -> ParsedDate, today: int)
    returns (totalOutstanding: int, topOverdue: seq<Overdue>)
    ensures totalOutstanding == SumOf(Filter(all, IsOutstanding), Balance)
    ensures totalOutstanding >= 0
    ensures topOverdue == TopOverdue(all, parse, today)
  {
    var outstanding := Outstanding(all);
    totalOutstanding := 0;
    var aged: seq<Overdue> := [];
    for i := 0 to |outstanding|
      invariant totalOutstanding == SumOf(outstanding[..i], ReceivableBalance)
      invariant aged == Aged(outstanding[..i], parse, today)
    {
      totalOutstanding := totalOutstanding + outstanding[i].balance;
      aged := aged + [Age(outstanding[i], parse, today)];
      assert outstanding[..i + 1][..i] == outstanding[..i];
    }
    assert outstanding[..|outstanding|] == outstanding;
    OutstandingTotal(all);
    OutstandingTotalSign(all);
    topOverdue := Take(SortBy(aged, MostOverdueFirst), 5);
  }

  /** The ranking is a stable reordering of the outstanding contracts, largest
      days overdue first. */
  lemma OverdueRankingFacts(all: seq<Contract>, parse: string -> ParsedDate, today: int)
    ensures multiset(OverdueRanking(all, parse, today)) == multiset(Aged(Outstanding(all), parse, today))
    ensures forall i, j :: 0 <= i < j < |OverdueRanking(all, parse, today)| ==>
              OverdueRanking(all, parse, today)[i].daysOverdue >= OverdueRanking(all, parse, today)[j].daysOverdue
    ensures forall k :: Select(OverdueRanking(all, parse, today), MostOverdueFirst, k) ==
                        Select(Aged(Outstanding(all), parse, today), MostOverdueFirst, k)
  {
    var aged := Aged(Outstanding(all), parse, today);
    SortByPermutes(aged, MostOverdueFirst);
    SortBySorted(aged, MostOverdueFirst);
    forall k ensures Select(SortBy(aged, MostOverdueFirst), MostOverdueFirst, k) == Select(aged, MostOverdueFirst, k) {
      SortByStable(aged, MostOverdueFirst, k);
    }
  }

  /** `topOverdue` holds at most five entries, sorted by days overdue, and no
      outstanding contract left out is more overdue than any listed one. */
  lemma TopOverdueOrder(all: seq<Contract>, parse: string -> ParsedDate, today: int)
    ensures |TopOverdue(all, parse, today)| == if |Outstanding(all)| < 5 then |Outstanding(all)| else 5
    ensures forall i, j :: 0 <= i < j < |TopOverdue(all, parse, today)| ==>
              TopOverdue(all, parse, today)[i].daysOverdue >= TopOverdue(all, parse, today)[j].daysOverdue
    ensures forall i, j :: 0 <= i < |TopOverdue(all, parse, today)| <= j < |OverdueRanking(all, parse, today)| ==>
              TopOverdue(all, parse, today)[i].daysOverdue >= OverdueRanking(all, parse, today)[j].daysOverdue
  {
    OverdueRankingFacts(all, parse, today);
  }

  /** Every entry of `topOverdue` is an outstanding contract with its balance
      and its (never negative) days overdue. */
  lemma TopOverdueMembers(all: seq<Contract>, parse: string -> ParsedDate, today: int)
    ensures forall o :: o in TopOverdue(all, parse, today) ==>
              && o.contract in all && IsOutstanding(o.contract) && o.balance == Balance(o.contract)
              && o.daysOverdue == DaysOverdue(today, parse(o.contract.constructionDate))
  {
    var ranked, top := OverdueRanking(all, parse, today), TopOverdue(all, parse, today);
    var aged := Aged(Outstanding(all), parse, today);
    SortByPermutes(aged, MostOverdueFirst);
    forall o | o in top
      ensures o.contract in all && IsOutstanding(o.contract) && o.balance == Balance(o.contract)
      ensures o.daysOverdue == DaysOverdue(today, parse(o.contract.constructionDate))
    {
      assert o in ranked;
      assert o in multiset(aged);
      var j :| 0 <= j < |aged| && aged[j] == o;
      assert Outstanding(all)[j] in Outstanding(all);
    }
  }
}
