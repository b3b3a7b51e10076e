/** The dashboard's derived numbers: one line per holding from its fetched quote, the currency
    conversion into the base currency, the summary totals, the portfolio percent change and the
    allocation by sector. Numbers are `real`; JavaScript float rounding is not modelled. */
module Portfolio {
  import opened Wrappers
  import opened Text
  import opened Types
  import opened AlphaVantage
  import opened Api

  /** A holding without a currency counts as USD. */
  function ItemCurrency(c: Option<Currency>): Currency {
    if c.Some? then c.value else USD
  }

  /** The factor from the holding's currency into the base currency. */
  function Rate(base: Currency, item: Option<Currency>, exchangeRate: real): (r: real)
    requires exchangeRate != 0.0
    ensures base == ItemCurrency(item) ==> r == 1.0
    ensures base == JPY && ItemCurrency(item) == USD ==> r == exchangeRate
    ensures base == USD && ItemCurrency(item) == JPY ==> r * exchangeRate == 1.0
  {
    var itemCurrency := ItemCurrency(item);
    if base == JPY && itemCurrency == USD then exchangeRate
    else if base == USD && itemCurrency == JPY then 1.0 / exchangeRate
    else 1.0
  }

  /** An amount in the holding's currency, expressed in the base currency. */
  function Convert(amount: real, item: Option<Currency>, base: Currency, exchangeRate: real): (v: real)
    requires exchangeRate != 0.0
    ensures ItemCurrency(item) == base ==> v == amount
    ensures base == JPY && ItemCurrency(item) == USD ==> v == amount * exchangeRate
    ensures base == USD && ItemCurrency(item) == JPY ==> v * exchangeRate == amount
  {
    amount * Rate(base, item, exchangeRate)
  }

  /** Converting an amount from one currency into another and back at the same rate gives the
      amount back (for USD to JPY and back, the factors are the rate and its inverse). */
  lemma RateRoundTrip(amount: real, from: Currency, to: Currency, exchangeRate: real)
    requires exchangeRate != 0.0
    ensures Convert(Convert(amount, Some(from), to, exchangeRate), Some(to), from, exchangeRate) == amount
  {
    var there := Rate(to, Some(from), exchangeRate);
    var back := Rate(from, Some(to), exchangeRate);
    var converted := amount * there;
    assert Convert(amount, Some(from), to, exchangeRate) == converted;
    assert Convert(converted, Some(to), from, exchangeRate) == converted * back;
    if from != to {
      assert there * back == 1.0;
      assert converted * back == amount * (there * back);
    }
  }

  /** The user's sector replaces the quote's only when the quote says "Unknown". */
  function FinalSector(quoteSector: string, userSector: Option<string>): (s: string)
    ensures Truthy(userSector) && quoteSector == "Unknown" ==> s == userSector.value
    ensures !(Truthy(userSector) && quoteSector == "Unknown") ==> s == quoteSector
  {
    if quoteSector == "Unknown" && Truthy(userSector) then userSector.value else quoteSector
  }

  /** Every number of a line is 0, as for a holding whose fetch failed. */
  predicate Zeroed(item: PortfolioItem) {
    && item.price == 0.0 && item.changePercent == 0.0 && item.previousClose == 0.0
    && item.currentPrice == 0.0 && item.value == 0.0 && item.valueInBaseCurrency == 0.0
    && item.dayChangeValue == 0.0 && item.dayChangeValueInBaseCurrency == 0.0
    && item.dayChangePercent == 0.0
  }

  /** The line for one holding, from what its fetch resolved to or rejected with. */
  function Line(stock: Stock, fetched: Result<StockData, FetchError>, base: Currency, exchangeRate: real)
    : (item: PortfolioItem)
    requires exchangeRate != 0.0
    // The holding's own fields are kept.
    ensures item.id == stock.id && item.quantity == stock.quantity && item.purchasePrice == stock.purchasePrice
    ensures item.userSector == stock.userSector && item.currency == stock.currency
    // A resolved quote: values in native currency, converted by the rate, percent taken as given.
    ensures fetched.Success? ==>
      var d := fetched.value;
      && item.symbol == d.symbol && item.isMock == d.isMock
      && item.price == d.price && item.changePercent == d.changePercent && item.previousClose == d.previousClose
      && item.sector == FinalSector(d.sector, stock.userSector)
      && item.currentPrice == d.price
      && item.value == d.price * stock.quantity
      && item.dayChangeValue == (d.price - d.previousClose) * stock.quantity
      && item.dayChangePercent == d.changePercent
      && item.valueInBaseCurrency == Convert(item.value, stock.currency, base, exchangeRate)
      && item.dayChangeValueInBaseCurrency == Convert(item.dayChangeValue, stock.currency, base, exchangeRate)
    // A rejected fetch: a zeroed line under the holding's symbol and sector (or "Unknown").
    ensures fetched.Failure? ==>
      && Zeroed(item) && item.symbol == stock.symbol && !item.isMock
      && item.sector == (if Truthy(stock.userSector) then stock.userSector.value else "Unknown")
  {
    match fetched
    case Success(d) =>
      var value := d.price * stock.quantity;
      var dayChangeValue := (d.price - d.previousClose) * stock.quantity;
      PortfolioItem(stock.id, d.symbol, stock.quantity, stock.purchasePrice, stock.userSector, stock.currency,
        d.price, d.changePercent, d.previousClose, FinalSector(d.sector, stock.userSector), d.isMock,
        d.price, value, Convert(value, stock.currency, base, exchangeRate),
        dayChangeValue, Convert(dayChangeValue, stock.currency, base, exchangeRate), d.changePercent)
    case Failure(_) =>
      PortfolioItem(stock.id, stock.symbol, stock.quantity, stock.purchasePrice, stock.userSector, stock.currency,
        0.0, 0.0, 0.0, if Truthy(stock.userSector) then stock.userSector.value else "Unknown", false,
        0.0, 0.0, 0.0, 0.0, 0.0, 0.0)
  }

  /** The lines of one refresh: exactly one per holding, in the holdings' order. */
  function Lines(stocks: seq<Stock>, fetched: seq<Result<StockData, FetchError>>, base: Currency, exchangeRate: real)
    : (items: seq<PortfolioItem>)
    requires |fetched| == |stocks| && exchangeRate != 0.0
    ensures |items| == |stocks|
    ensures forall i :: 0 <= i < |items| ==> items[i] == Line(stocks[i], fetched[i], base, exchangeRate)
    ensures forall i :: 0 <= i < |items| ==>
      items[i].id == stocks[i].id && items[i].quantity == stocks[i].quantity
    ensures forall i :: 0 <= i < |items| && fetched[i].Failure? ==> Zeroed(items[i])
    ensures forall i :: 0 <= i < |items| && fetched[i].Success? ==>
      items[i].valueInBaseCurrency
        == Convert(fetched[i].value.price * stocks[i].quantity, stocks[i].currency, base, exchangeRate)
  {
    seq(|stocks|, i requires 0 <= i < |stocks| => Line(stocks[i], fetched[i], base, exchangeRate))
  }

  /** `stocks.map(stock => fetchStockData(stock.symbol, apiKey))`: each holding's outcome, given
      the upstream reply and the two random draws for that holding. */
  function FetchAll(stocks: seq<Stock>, apiKey: string, r1s: seq<real>, r2s: seq<real>,
                    replies: seq<Reply>, parseFloat: string -> real): (fetched: seq<Result<StockData, FetchError>>)
    requires |r1s| == |stocks| && |r2s| == |stocks| && |replies| == |stocks|
    requires forall i :: 0 <= i < |stocks| ==> 0.0 <= r1s[i] < 1.0 && 0.0 <= r2s[i] < 1.0
    ensures |fetched| == |stocks|
    ensures forall i :: 0 <= i < |stocks| ==>
      fetched[i] == FetchStockData(stocks[i].symbol, apiKey, r1s[i], r2s[i], replies[i], parseFloat)
  {
    if stocks == [] then []
    else
      var n := |stocks| - 1;
      FetchAll(stocks[..n], apiKey, r1s[..n], r2s[..n], replies[..n], parseFloat)
      + [FetchStockData(stocks[n].symbol, apiKey, r1s[n], r2s[n], replies[n], parseFloat)]
  }

  /** The `summary` reduce, from the left: sums of the base-currency value and day change. */
  function Summarize(items: seq<PortfolioItem>): (s: Summary)
    ensures s.totalDayChangePercent == 0.0
    // Lines that are all zeroed (every fetch failed) total nothing.
    ensures (forall i :: 0 <= i < |items| ==> Zeroed(items[i])) ==>
      s.totalValue == 0.0 && s.totalDayChangeValue == 0.0
  {
    if items == [] then Summary(0.0, 0.0, 0.0)
    else
      var acc := Summarize(items[..|items| - 1]);
      var item := items[|items| - 1];
      Summary(acc.totalValue + item.valueInBaseCurrency,
              acc.totalDayChangeValue + item.dayChangeValueInBaseCurrency, 0.0)
  }

  /** Totals are additive over a split of the lines; the empty portfolio totals 0 and 0. */
  lemma {:induction false} SummarizeAppend(a: seq<PortfolioItem>, b: seq<PortfolioItem>)
    ensures Summarize(a + b).totalValue == Summarize(a).totalValue + Summarize(b).totalValue
    ensures Summarize(a + b).totalDayChangeValue == Summarize(a).totalDayChangeValue + Summarize(b).totalDayChangeValue
    ensures Summarize([]) == Summary(0.0, 0.0, 0.0)
  {
    if b == [] {
      assert a + b == a;
    } else {
      var init := b[..|b| - 1];
      assert (a + b)[..|a + b| - 1] == a + init;
      SummarizeAppend(a, init);
    }
  }

  /** One line totals its own base-currency value and day change; with `SummarizeAppend`, both
      totals are the sums of those fields over the lines. */
  lemma SummarizeSingle(x: PortfolioItem)
    ensures Summarize([x]) == Summary(x.valueInBaseCurrency, x.dayChangeValueInBaseCurrency, 0.0)
  {
    assert [x][..0] == [];
  }

  /** A failed holding's zeroed line changes no total: the summary reflects only the others. */
  lemma FailedLineAddsNothing(a: seq<PortfolioItem>, item: PortfolioItem, b: seq<PortfolioItem>)
    requires Zeroed(item)
    ensures Summarize(a + [item] + b) == Summarize(a + b)
  {
    SummarizeAppend(a + [item], b);
    SummarizeAppend(a, [item]);
    SummarizeAppend(a, b);
    assert Summarize([item]) == Summary(0.0, 0.0, 0.0) by {
      assert [item][..0] == [];
    }
  }

  /** `portfolioChangePercent`: the day change relative to yesterday's value, in percent, and 0
      when yesterday's value is 0. */
  function ChangePercent(s: Summary): (p: real)
    ensures s.totalValue - s.totalDayChangeValue == 0.0 ==> p == 0.0
    ensures s.totalValue - s.totalDayChangeValue != 0.0 ==>
      p * (s.totalValue - s.totalDayChangeValue) == s.totalDayChangeValue * 100.0
  {
    var previous := s.totalValue - s.totalDayChangeValue;
    if previous != 0.0 then s.totalDayChangeValue / previous * 100.0 else 0.0
  }

  /** The empty portfolio shows 0 in every summary figure. */
  lemma EmptyPortfolio()
    ensures Summarize([]).totalValue == 0.0 && Summarize([]).totalDayChangeValue == 0.0
    ensures ChangePercent(Summarize([])) == 0.0
  {
  }

  // ---- Sector allocation ----

  /** `item.sector || 'Unknown'`. */
  function SectorName(item: PortfolioItem): (n: string)
    ensures n != ""
    ensures item.sector != "" ==> n == item.sector
    ensures item.sector == "" ==> n == "Unknown"
  {
    if item.sector == "" then "Unknown" else item.sector
  }

  predicate Distinct(names: seq<string>) {
    forall i, j :: 0 <= i < j < |names| ==> names[i] != names[j]
  }

  /** The sector names of the lines, each once, in order of first occurrence (a `Map`'s key order). */
  function Sectors(items: seq<PortfolioItem>): (names: seq<string>)
    ensures Distinct(names)
  {
    if items == [] then []
    else
      var names := Sectors(items[..|items| - 1]);
      var n := SectorName(items[|items| - 1]);
      if n in names then names
      else
        assert forall i :: 0 <= i < |names| ==> (names + [n])[i] == names[i];
        names + [n]
  }

  /** The sector list names exactly the sectors that occur among the lines. */
  lemma {:induction false} SectorsCover(items: seq<PortfolioItem>, name: string)
    ensures name in Sectors(items) <==> exists i :: 0 <= i < |items| && SectorName(items[i]) == name
  {
    if items != [] {
      var init := items[..|items| - 1];
      var x := items[|items| - 1];
      assert items == init + [x];
      SectorsCover(init, name);
      SnocUnfold(init, x, name);
      OccursSnoc(init, x, name);
    }
  }

  /** A sector occurs among `init + [x]` exactly when it occurs among `init` or is `x`'s. */
  lemma OccursSnoc(init: seq<PortfolioItem>, x: PortfolioItem, name: string)
    ensures (exists i :: 0 <= i < |init + [x]| && SectorName((init + [x])[i]) == name)
        <==> (exists i :: 0 <= i < |init| && SectorName(init[i]) == name) || SectorName(x) == name
  {
    var items := init + [x];
    if exists i :: 0 <= i < |init| && SectorName(init[i]) == name {
      var i :| 0 <= i < |init| && SectorName(init[i]) == name;
      assert items[i] == init[i];
    }
    if SectorName(x) == name {
      assert items[|init|] == x;
    }
    if exists i :: 0 <= i < |items| && SectorName(items[i]) == name {
      var i :| 0 <= i < |items| && SectorName(items[i]) == name;
      if i < |init| {
        assert init[i] == items[i];
      }
    }
  }

  /** The sectors are listed in order of their first line: a line of a later-listed sector is
      always preceded by a line of every earlier-listed one. */
  lemma {:induction false} SectorsInFirstOccurrenceOrder(items: seq<PortfolioItem>, i: nat, j: nat, k: nat)
    requires i < j < |Sectors(items)|
    requires k < |items| && SectorName(items[k]) == Sectors(items)[j]
    ensures exists m :: 0 <= m < k && SectorName(items[m]) == Sectors(items)[i]
  {
    var init := items[..|items| - 1];
    var names := Sectors(init);
    var n := SectorName(items[|items| - 1]);
    if k == |init| {
      if n in names {
        SectorsCover(init, n);
        var k' :| 0 <= k' < |init| && SectorName(init[k']) == n;
        SectorsInFirstOccurrenceOrder(init, i, j, k');
        var m :| 0 <= m < k' && SectorName(init[m]) == names[i];
        assert items[m] == init[m];
      } else {
        assert Sectors(items) == names + [n];
        assert i < |names| && Sectors(items)[i] == names[i];
        SectorsCover(init, names[i]);
        var m :| 0 <= m < |init| && SectorName(init[m]) == names[i];
        assert items[m] == init[m];
      }
    } else {
      assert items[k] == init[k];
      SectorsCover(init, SectorName(init[k]));
      if n !in names {
        assert Sectors(items) == names + [n];
        assert Sectors(items)[j] in names;
        assert j < |names|;
      }
      assert Sectors(items)[j] == names[j] && Sectors(items)[i] == names[i];
      SectorsInFirstOccurrenceOrder(init, i, j, k);
      var m :| 0 <= m < k && SectorName(init[m]) == names[i];
      assert items[m] == init[m];
    }
  }

  /** The summed base-currency value of the lines in sector `name`. */
  function SectorTotal(items: seq<PortfolioItem>, name: string): real
  {
    if items == [] then 0.0
    else
      var item := items[|items| - 1];
      SectorTotal(items[..|items| - 1], name) + (if SectorName(item) == name then item.valueInBaseCurrency else 0.0)
  }

  /** The allocation entries for the sectors `names`, in that order. */
  function AllocationOver(items: seq<PortfolioItem>, names: seq<string>): (alloc: seq<SectorAlloc>)
    ensures |alloc| == |names|
    ensures forall j :: 0 <= j < |alloc| ==> alloc[j].name == names[j]
  {
    if names == [] then []
    else AllocationOver(items, names[..|names| - 1])
         + [SectorAlloc(names[|names| - 1], SectorTotal(items, names[|names| - 1]))]
  }

  /** `sectorData`: one entry per distinct sector, in first-occurrence order, with its total. */
  function Allocation(items: seq<PortfolioItem>): (alloc: seq<SectorAlloc>)
    ensures |alloc| == |Sectors(items)|
    ensures forall j :: 0 <= j < |alloc| ==> alloc[j].name == Sectors(items)[j]
  {
    AllocationOver(items, Sectors(items))
  }

  /** Entry `j` of the allocation is the `j`-th sector with that sector's total. */
  lemma {:induction false} AllocationOverAt(items: seq<PortfolioItem>, names: seq<string>, j: nat)
    requires j < |names|
    ensures AllocationOver(items, names)[j] == SectorAlloc(names[j], SectorTotal(items, names[j]))
  {
    var init := names[..|names| - 1];
    if j < |init| {
      AllocationOverAt(items, init, j);
      assert AllocationOver(items, names)[j] == AllocationOver(items, init)[j];
    }
  }

  /** The sum of the allocation's values. */
  function AllocTotal(alloc: seq<SectorAlloc>): real {
    if alloc == [] then 0.0 else AllocTotal(alloc[..|alloc| - 1]) + alloc[|alloc| - 1].value
  }

  /** A sector that no line carries totals 0. */
  lemma {:induction false} AbsentSectorTotalsZero(items: seq<PortfolioItem>, name: string)
    requires name !in Sectors(items)
    ensures SectorTotal(items, name) == 0.0
  {
    if items != [] {
      var init := items[..|items| - 1];
      var n := SectorName(items[|items| - 1]);
      assert n in Sectors(items);
      assert forall m :: m in Sectors(init) ==> m in Sectors(items);
      AbsentSectorTotalsZero(init, name);
    }
  }

  /** Adding one line to the portfolio adds its value to the allocation over any distinct
      sector list that contains its sector, and nothing otherwise. */
  lemma {:induction false} AllocationOverSnoc(items: seq<PortfolioItem>, x: PortfolioItem, names: seq<string>)
    requires Distinct(names)
    ensures AllocTotal(AllocationOver(items + [x], names))
         == AllocTotal(AllocationOver(items, names)) + (if SectorName(x) in names then x.valueInBaseCurrency else 0.0)
  {
    if names != [] {
      var init := names[..|names| - 1];
      var m := names[|names| - 1];
      assert Distinct(init);
      assert m !in init;
      assert (items + [x])[..|items|] == items;
      AllocationOverSnoc(items, x, init);
      assert AllocationOver(items + [x], names)[..|init|] == AllocationOver(items + [x], init);
      assert AllocationOver(items, names)[..|init|] == AllocationOver(items, init);
      assert SectorName(x) in names <==> SectorName(x) in init || SectorName(x) == m;
    }
  }

  /** How the sums and the sector list change when one line is added at the end. */
  lemma SnocUnfold(init: seq<PortfolioItem>, x: PortfolioItem, name: string)
    ensures Summarize(init + [x]).totalValue == Summarize(init).totalValue + x.valueInBaseCurrency
    ensures Summarize(init + [x]).totalDayChangeValue
         == Summarize(init).totalDayChangeValue + x.dayChangeValueInBaseCurrency
    ensures Sectors(init + [x])
         == if SectorName(x) in Sectors(init) then Sectors(init) else Sectors(init) + [SectorName(x)]
    ensures SectorTotal(init + [x], name)
         == SectorTotal(init, name) + (if SectorName(x) == name then x.valueInBaseCurrency else 0.0)
  {
    var items := init + [x];
    assert items[..|items| - 1] == init;
    assert items[|items| - 1] == x;
  }

  /** Adding one sector at the end of the list adds that sector's total. */
  lemma AllocationOverSnocName(items: seq<PortfolioItem>, names: seq<string>, name: string)
    ensures AllocTotal(AllocationOver(items, names + [name]))
         == AllocTotal(AllocationOver(items, names)) + SectorTotal(items, name)
  {
    var all := names + [name];
    assert all[..|all| - 1] == names;
    var alloc := AllocationOver(items, all);
    assert alloc[..|alloc| - 1] == AllocationOver(items, names);
  }

  /** One more line adds its value to the allocation's sum, in its existing sector or a new one. */
  lemma AllocationSnoc(init: seq<PortfolioItem>, x: PortfolioItem)
    ensures AllocTotal(Allocation(init + [x])) == AllocTotal(Allocation(init)) + x.valueInBaseCurrency
  {
    var n := SectorName(x);
    var names := Sectors(init);
    SnocUnfold(init, x, n);
    AllocationOverSnoc(init, x, names);
    if n !in names {
      AllocationOverSnocName(init + [x], names, n);
      AbsentSectorTotalsZero(init, n);
    }
  }

  /** The allocation's values add up to the summary's total value. */
  lemma {:induction false} AllocationSumsToTotal(items: seq<PortfolioItem>)
    ensures AllocTotal(Allocation(items)) == Summarize(items).totalValue
  {
    if items != [] {
      var init := items[..|items| - 1];
      var x := items[|items| - 1];
      assert init + [x] == items;
      AllocationSumsToTotal(init);
      AllocationSnoc(init, x);
      SnocUnfold(init, x, "");
    }
  }

  /** A worked example: 10 USD shares at 230.50 (previous close 227.65), shown in JPY at 150. */
  lemma AaplInYenScenario()
    ensures var item := Line(Stock("1", "AAPL", 10.0, None, None, Some(USD)),
                             Success(StockData("AAPL", 230.50, 1.25, 227.65, "Unknown", false)), JPY, 150.0);
      && item.value == 2305.00 && item.valueInBaseCurrency == 345750.00
      && item.dayChangeValue == 28.50 && item.dayChangeValueInBaseCurrency == 4275.00
      && item.dayChangePercent == 1.25 && item.sector == "Unknown"
  {
  }
}
