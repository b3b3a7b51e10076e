/** The dashboard's state and its handlers: the holdings list and the computed lines it shows, the
    add form, adding and removing a holding, refreshing the lines, and building the sector
    allocation with a `Map` as the page does. */
module App {
  import opened Wrappers
  import opened Text
  import opened Types
  import opened AlphaVantage
  import opened Api
  import opened Portfolio

  datatype Preset = Preset(id: string, name: string, symbol: string, sector: string, currency: Currency)

  const Presets: seq<Preset> := [
    Preset("ACWI", "全世界株式 (ACWI)", "ACWI", "Global", USD),
    Preset("SP500", "S&P 500 (VOO)", "VOO", "US Market", USD),
    Preset("NAS100", "NASDAQ 100 (QQQ)", "QQQ", "Technology", USD),
    Preset("FANG", "FANG+ (FNGS)", "FNGS", "Technology", USD),
    Preset("SOX", "SOX指数 (SOXX)", "SOXX", "Technology", USD),
    Preset("NIKKEI", "日経平均 (EWJ)", "EWJ", "Japan", USD)
  ]

  /** `PRESETS.find(p => p.id === id)`: the first preset with that id. */
  function FindPreset(presets: seq<Preset>, id: string): (r: Option<Preset>)
    ensures r.None? <==> forall i :: 0 <= i < |presets| ==> presets[i].id != id
    ensures r.Some? ==> exists i ::
      && 0 <= i < |presets| && presets[i] == r.value
      && r.value.id == id && (forall j :: 0 <= j < i ==> presets[j].id != id)
  {
    if presets == [] then None
    else if presets[0].id == id then Some(presets[0])
    else
      var r := FindPreset(presets[1..], id);
      assert r.Some? ==> exists i ::
        && 1 <= i < |presets| && presets[i] == r.value
        && r.value.id == id && (forall j :: 0 <= j < i ==> presets[j].id != id) by {
        if r.Some? {
          var k :| 0 <= k < |presets[1..]| && presets[1..][k] == r.value
            && r.value.id == id && forall j :: 0 <= j < k ==> presets[1..][j].id != id;
          assert presets[k + 1] == r.value;
          assert forall j :: 0 <= j < k + 1 ==> presets[j].id != id by {
            forall j | 0 <= j < k + 1 ensures presets[j].id != id {
              if j > 0 { assert presets[j] == presets[1..][j - 1]; }
            }
          }
        }
      }
      r
  }

  datatype InputType = PresetInput | CustomInput

  /** The add form's fields. */
  datatype Form = Form(
    inputType: InputType,
    selectedPreset: string,
    symbol: string,
    qty: string,
    userSector: string,
    stockCurrency: Currency)

  datatype Target = Target(symbol: string, sector: string, currency: Currency)

  /** What a submitted form adds: a found preset decides symbol, sector and currency; otherwise the
      typed symbol, the typed sector or "Other", and the chosen currency. */
  function AddTarget(form: Form): (t: Target)
    ensures form.inputType == PresetInput && FindPreset(Presets, form.selectedPreset).Some? ==>
      var p := FindPreset(Presets, form.selectedPreset).value;
      t == Target(p.symbol, p.sector, p.currency)
    ensures !(form.inputType == PresetInput && FindPreset(Presets, form.selectedPreset).Some?) ==>
      && t.symbol == form.symbol && t.currency == form.stockCurrency
      && t.sector == (if form.userSector != "" then form.userSector else "Other")
    ensures t.sector != ""
  {
    var custom := Target(form.symbol, if form.userSector != "" then form.userSector else "Other", form.stockCurrency);
    if form.inputType == PresetInput then
      match FindPreset(Presets, form.selectedPreset)
      case Some(p) => Target(p.symbol, p.sector, p.currency)
      case None => custom
    else custom
  }

  function StockId(s: Stock): string { s.id }

  function ItemId(item: PortfolioItem): string { item.id }

  /** `xs.filter(x => x.id !== id)`. */
  function WithoutId<T(==, !new)>(xs: seq<T>, idOf: T -> string, id: string): (r: seq<T>)
    ensures |r| <= |xs|
    ensures forall x :: x in r <==> x in xs && idOf(x) != id
  {
    if xs == [] then []
    else (if idOf(xs[0]) != id then [xs[0]] else []) + WithoutId(xs[1..], idOf, id)
  }

  /** Filtering keeps the order: it distributes over concatenation. */
  lemma {:induction false} WithoutIdAppend<T(!new)>(a: seq<T>, b: seq<T>, idOf: T -> string, id: string)
    ensures WithoutId(a + b, idOf, id) == WithoutId(a, idOf, id) + WithoutId(b, idOf, id)
  {
    if a == [] {
      assert a + b == b;
    } else {
      var head := if idOf(a[0]) != id then [a[0]] else [];
      assert (a + b)[0] == a[0];
      assert (a + b)[1..] == a[1..] + b;
      WithoutIdAppend(a[1..], b, idOf, id);
      calc {
        WithoutId(a + b, idOf, id);
        head + WithoutId(a[1..] + b, idOf, id);
        head + (WithoutId(a[1..], idOf, id) + WithoutId(b, idOf, id));
        (head + WithoutId(a[1..], idOf, id)) + WithoutId(b, idOf, id);
      }
    }
  }

  /** A list with no entry of that id is left exactly as it was. */
  lemma {:induction false} WithoutAbsentId<T(!new)>(xs: seq<T>, idOf: T -> string, id: string)
    requires forall i :: 0 <= i < |xs| ==> idOf(xs[i]) != id
    ensures WithoutId(xs, idOf, id) == xs
  {
    if xs != [] {
      WithoutAbsentId(xs[1..], idOf, id);
      assert [xs[0]] + xs[1..] == xs;
    }
  }

  /** `isMockData`: whether any line is flagged as demo data. */
  predicate AnyMock(items: seq<PortfolioItem>) {
    exists i :: 0 <= i < |items| && items[i].isMock
  }

  /** Since no fetched quote sets `isMock`, the demo badge is never shown after a refresh. */
  lemma MockBadgeNeverShown(stocks: seq<Stock>, fetched: seq<Result<StockData, FetchError>>,
                            base: Currency, exchangeRate: real)
    requires |fetched| == |stocks| && exchangeRate != 0.0
    requires forall i :: 0 <= i < |fetched| && fetched[i].Success? ==> !fetched[i].value.isMock
    ensures !AnyMock(Lines(stocks, fetched, base, exchangeRate))
  {
    var items := Lines(stocks, fetched, base, exchangeRate);
    forall i | 0 <= i < |items| ensures !items[i].isMock {
      assert items[i] == Line(stocks[i], fetched[i], base, exchangeRate);
    }
  }

  /** The refresh as the page runs it, every holding fetched through the quote service: no line
      is ever flagged as demo data, so the badge never shows. */
  lemma MockBadgeNeverShownAfterFetch(stocks: seq<Stock>, apiKey: string, r1s: seq<real>, r2s: seq<real>,
                                      replies: seq<Reply>, parseFloat: string -> real,
                                      base: Currency, exchangeRate: real)
    requires |r1s| == |stocks| && |r2s| == |stocks| && |replies| == |stocks| && exchangeRate != 0.0
    requires forall i :: 0 <= i < |stocks| ==> 0.0 <= r1s[i] < 1.0 && 0.0 <= r2s[i] < 1.0
    ensures !AnyMock(Lines(stocks, FetchAll(stocks, apiKey, r1s, r2s, replies, parseFloat), base, exchangeRate))
  {
    var fetched := FetchAll(stocks, apiKey, r1s, r2s, replies, parseFloat);
    MockBadgeNeverShown(stocks, fetched, base, exchangeRate);
  }

  /** The state of the `sectorData` loop after the lines `items`: the map's key order and totals. */
  ghost predicate Tallied(items: seq<PortfolioItem>, order: seq<string>, totals: map<string, real>) {
    && order == Sectors(items)
    && (forall n :: n in totals <==> n in order)
    && (forall n :: n in totals ==> totals[n] == SectorTotal(items, n))
  }

  /** One `map.set(sec, (map.get(sec) || 0) + val)` keeps the loop state exact. */
  lemma TallyStep(items: seq<PortfolioItem>, x: PortfolioItem, order: seq<string>, totals: map<string, real>)
    requires Tallied(items, order, totals)
    ensures var sec := SectorName(x);
      Tallied(items + [x],
              if sec in totals then order else order + [sec],
              totals[sec := (if sec in totals then totals[sec] else 0.0) + x.valueInBaseCurrency])
  {
    var sec := SectorName(x);
    var totals' := totals[sec := (if sec in totals then totals[sec] else 0.0) + x.valueInBaseCurrency];
    SnocUnfold(items, x, sec);
    if sec !in totals {
      AbsentSectorTotalsZero(items, sec);
    }
    forall n | n in totals' ensures totals'[n] == SectorTotal(items + [x], n) {
      SnocUnfold(items, x, n);
    }
  }

  /** Listing one more key of the finished map extends the allocation by that sector's entry. */
  lemma ListStep(items: seq<PortfolioItem>, order: seq<string>, totals: map<string, real>, j: nat)
    requires Tallied(items, order, totals) && j < |order|
    ensures order[j] in totals
    ensures AllocationOver(items, order[..j + 1])
         == AllocationOver(items, order[..j]) + [SectorAlloc(order[j], totals[order[j]])]
  {
    var names := order[..j + 1];
    assert names[..j] == order[..j] && names[j] == order[j];
  }

  /** `sectorData`: a `Map` from sector to summed value, filled in line order, then listed in the
      map's key order. `order` is that key order: a key joins at its first `set`. */
  method SectorData(items: seq<PortfolioItem>) returns (alloc: seq<SectorAlloc>)
    ensures alloc == Allocation(items)
    ensures AllocTotal(alloc) == Summarize(items).totalValue
  {
    var totals: map<string, real> := map[];
    var order: seq<string> := [];
    for i := 0 to |items|
      invariant Tallied(items[..i], order, totals)
    {
      var item := items[i];
      var sec := SectorName(item);
      var previous := if sec in totals then totals[sec] else 0.0;
      TallyStep(items[..i], item, order, totals);
      assert items[..i + 1] == items[..i] + [item];
      if sec !in totals {
        order := order + [sec];
      }
      totals := totals[sec := previous + item.valueInBaseCurrency];
    }
    assert items[..|items|] == items;
    assert Tallied(items, order, totals);
    alloc := [];
    for j := 0 to |order|
      invariant alloc == AllocationOver(items, order[..j])
    {
      ListStep(items, order, totals, j);
      alloc := alloc + [SectorAlloc(order[j], totals[order[j]])];
    }
    assert order[..|order|] == order;
    AllocationSumsToTotal(items);
  }

  class Dashboard {
    /** The holdings (`stocks`), kept in local storage by the page. */
    var stocks: seq<Stock>
    /** The lines of the last refresh (`portfolioData`). */
    var portfolioData: seq<PortfolioItem>
    var baseCurrency: Currency
    var exchangeRate: real
    var form: Form

    /** A page load with the stored holdings, base currency and rate, and an empty form. */
    constructor (stocks: seq<Stock>, baseCurrency: Currency, exchangeRate: real)
      ensures this.stocks == stocks && portfolioData == []
      ensures this.baseCurrency == baseCurrency && this.exchangeRate == exchangeRate
      ensures form == Form(PresetInput, Presets[0].id, "", "", "", USD)
    {
      this.stocks := stocks;
      portfolioData := [];
      this.baseCurrency := baseCurrency;
      this.exchangeRate := exchangeRate;
      form := Form(PresetInput, Presets[0].id, "", "", "", USD);
    }

    /** `handleAddStock`: with a symbol and a quantity, append one holding with id `newId` (from
        `crypto.randomUUID`) and clear the text fields; otherwise change nothing. */
    method AddStock(newId: string, parseFloat: string -> real)
      modifies this
      ensures portfolioData == old(portfolioData)
      ensures baseCurrency == old(baseCurrency) && exchangeRate == old(exchangeRate)
      ensures var t := AddTarget(old(form));
        if t.symbol == "" || old(form).qty == "" then
          stocks == old(stocks) && form == old(form)
        else
          && stocks == old(stocks) + [Stock(newId, Upper(t.symbol), parseFloat(old(form).qty), None,
                                            Some(t.sector), Some(t.currency))]
          && form == old(form).(symbol := "", qty := "", userSector := "")
    {
      var t := AddTarget(form);
      if t.symbol == "" || form.qty == "" {
        return;
      }
      var added := Stock(newId, Upper(t.symbol), parseFloat(form.qty), None, Some(t.sector), Some(t.currency));
      stocks := stocks + [added];
      form := form.(symbol := "", qty := "", userSector := "");
    }

    /** `removeStock`: drop the entries with this id from both lists, keeping the rest in order. */
    method RemoveStock(id: string)
      modifies this
      ensures stocks == WithoutId(old(stocks), StockId, id)
      ensures portfolioData == WithoutId(old(portfolioData), ItemId, id)
      ensures baseCurrency == old(baseCurrency) && exchangeRate == old(exchangeRate) && form == old(form)
    {
      stocks := WithoutId(stocks, StockId, id);
      portfolioData := WithoutId(portfolioData, ItemId, id);
    }

    /** `refreshData`: one fetch outcome per holding, in the holdings' order, gives the new lines. */
    method Refresh(fetched: seq<Result<StockData, FetchError>>)
      requires |fetched| == |stocks| && exchangeRate != 0.0
      modifies this
      ensures stocks == old(stocks) && form == old(form)
      ensures baseCurrency == old(baseCurrency) && exchangeRate == old(exchangeRate)
      ensures portfolioData == Lines(stocks, fetched, baseCurrency, exchangeRate)
    {
      portfolioData := Lines(stocks, fetched, baseCurrency, exchangeRate);
    }
  }

  /** Adding a holding and then removing its id gives back the holdings it was added to, provided
      that id was not in use. */
  method AddThenRemove(dashboard: Dashboard, newId: string, parseFloat: string -> real)
    requires forall i :: 0 <= i < |dashboard.stocks| ==> dashboard.stocks[i].id != newId
    modifies dashboard
    ensures dashboard.stocks == old(dashboard.stocks)
  {
    ghost var before := dashboard.stocks;
    dashboard.AddStock(newId, parseFloat);
    ghost var added := dashboard.stocks;
    dashboard.RemoveStock(newId);
    WithoutAbsentId(before, StockId, newId);
    if added != before {
      var s := added[|before|];
      assert added == before + [s];
      WithoutIdAppend(before, [s], StockId, newId);
      assert WithoutId([s], StockId, newId) == [] by {
        assert [s][1..] == [];
      }
    }
  }
}
