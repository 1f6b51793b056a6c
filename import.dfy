/** The ledger changes of `HandleImportCSV` (handlers/import.go): the trades
    read from a brokerage export are replayed in file order, share trades
    first, then option trades. Each step is a function from the ledger before
    the trade to the ledger after it; the Store module runs the two loops. */
module CsvImport {
  import opened Seqs
  import opened Types
  import opened Totals
  import opened Tables
  import opened Positions
  import opened Dates
  import opened Text
  import opened Tokenizer
  import opened Brokerage

  // ----- share trades -----

  /** A Buy merges into the ticker's lot, whose new size must not be 0. */
  predicate ReplayStockDefined(db: Db, t: StockTrade)
  {
    t.code == Buy ==> MergeDefined(db.stocks, t.ticker, t.quantity)
  }

  /** Shares taken out of the lot by a Sell: all of them when the sale
      reaches the lot's size, else the quantity sold. */
  function SellQuantity(held: real, sold: real): real
  {
    if held - sold <= 0.0 then held else sold
  }

  /** A Sell of a positive quantity out of a positive lot takes the smaller
      of the two: never more than the lot holds nor more than was sold, and
      the lot is left with what the sale did not reach, or nothing. */
  lemma SellQuantityIsMin(held: real, sold: real)
    requires held > 0.0 && sold > 0.0
    ensures 0.0 < SellQuantity(held, sold) <= held
    ensures SellQuantity(held, sold) <= sold
    ensures SellQuantity(held, sold) == held || SellQuantity(held, sold) == sold
    ensures held - SellQuantity(held, sold) == (if sold >= held then 0.0 else held - sold)
  {
  }

  /** One share trade. The ticker's first lot is looked up (by ticker only).
      A Buy merges into it, or opens a lot on the normalised trade date. A
      Sell that empties the lot records a closed row for the lot's whole
      quantity, opened and closed on the trade date, and deletes the lot; a
      smaller Sell only reduces the lot and records no sale. A Sell without a
      lot, or any other code, changes nothing. */
  function ReplayStock(db: Db, t: StockTrade): (r: Db)
    requires ReplayStockDefined(db, t)
    ensures r.options == db.options && r.closedOptions == db.closedOptions
    ensures r.nextOption == db.nextOption && r.nextClosedOption == db.nextClosedOption
    ensures t.code != Buy && t.code != Sell ==> r == db
    ensures t.code == Sell && LotOf(db.stocks, t.ticker).None? ==> r == db
  {
    var date := NormalizeDate(t.date);
    if t.code == Buy then AddShares(db, t.ticker, t.quantity, t.price, date)
    else if t.code == Sell then
      match LotOf(db.stocks, t.ticker)
      case None => db
      case Some(k) =>
        var lot := db.stocks[k];
        var q := SellQuantity(lot.quantity, t.quantity);
        if lot.quantity - t.quantity <= 0.0 then
          var d := InsertClosedStock(db, ClosedStock(0, t.ticker, date, date, lot.quantity, lot.costBasis, t.price,
                                                     SalePL(lot.costBasis, t.price, lot.quantity)));
          d.(stocks := ShrinkLot(d.stocks, k, q))
        else db.(stocks := ShrinkLot(db.stocks, k, q))
    else db
  }

  /** The share trades replayed in order are all defined. */
  predicate ReplayStocksDefined(db: Db, ts: seq<StockTrade>)
    decreases |ts|, 0
  {
    ts == [] ||
    (ReplayStocksDefined(db, ts[..|ts| - 1]) && ReplayStockDefined(ReplayStocks(db, ts[..|ts| - 1]), ts[|ts| - 1]))
  }

  /** The first loop of `HandleImportCSV`. */
  function ReplayStocks(db: Db, ts: seq<StockTrade>): (r: Db)
    requires ReplayStocksDefined(db, ts)
    ensures r.options == db.options && r.closedOptions == db.closedOptions
    ensures r.nextOption == db.nextOption && r.nextClosedOption == db.nextClosedOption
    decreases |ts|, 1
  {
    if ts == [] then db else ReplayStock(ReplayStocks(db, ts[..|ts| - 1]), ts[|ts| - 1])
  }

  /** A share trade the export can produce keeps the full ledger invariant,
      and its merge is then always defined. */
  lemma ReplayStockKeeps(db: Db, t: StockTrade)
    requires LedgerOk(db) && GoodStockTrade(t)
    ensures ReplayStockDefined(db, t)
    ensures LedgerOk(ReplayStock(db, t))
  {
    if t.code == Buy {
      AddSharesKeeps(db, t.ticker, t.quantity, t.price, NormalizeDate(t.date));
    } else {
      match LotOf(db.stocks, t.ticker)
      case None =>
      case Some(k) =>
        var lot := db.stocks[k];
        var q := SellQuantity(lot.quantity, t.quantity);
        var date := NormalizeDate(t.date);
        if lot.quantity - t.quantity <= 0.0 {
          var c := ClosedStock(db.nextClosedStock, t.ticker, date, date, lot.quantity, lot.costBasis, t.price,
                               SalePL(lot.costBasis, t.price, lot.quantity));
          var r := ReplayStock(db, t);
          assert |r.closedStocks| == |db.closedStocks| + 1;
          assert r.closedStocks[|db.closedStocks|] == c;
          assert r.closedStocks == db.closedStocks + [c];
          KeyedAppend(db.closedStocks, ClosedStockKey, db.nextClosedStock, c);
          SalesConsistentAppend(db.closedStocks, c);
        }
        ShrinkLotKeeps(db.stocks, k, q, db.nextStock);
    }
  }

  /** On a ledger keeping the invariant, the whole first loop is defined and
      keeps it. */
  lemma {:induction false} ReplayStocksKeeps(db: Db, ts: seq<StockTrade>)
    requires LedgerOk(db) && GoodStockTrades(ts)
    ensures ReplayStocksDefined(db, ts)
    ensures LedgerOk(ReplayStocks(db, ts))
  {
    if ts != [] {
      var front := ts[..|ts| - 1];
      assert GoodStockTrades(front) by {
        forall t | t in front ensures GoodStockTrade(t) { assert t in ts; }
      }
      ReplayStocksKeeps(db, front);
      ReplayStockKeeps(ReplayStocks(db, front), ts[|ts| - 1]);
    }
  }

  /** Replaying a prefix of a defined replay is defined: the import can
      stop after any trade. */
  lemma {:induction false} ReplayStocksPrefix(db: Db, ts: seq<StockTrade>, n: nat)
    requires ReplayStocksDefined(db, ts) && n <= |ts|
    ensures ReplayStocksDefined(db, ts[..n])
    decreases |ts|
  {
    if n < |ts| {
      assert ts[..|ts| - 1][..n] == ts[..n];
      ReplayStocksPrefix(db, ts[..|ts| - 1], n);
    } else {
      assert ts[..n] == ts;
    }
  }

  /** What a Sell that empties lot `k` leaves: the sale row, and no lot. */
  lemma FullSellShape(db: Db, t: StockTrade, k: nat, row: ClosedStock)
    requires t.code == Sell && LotOf(db.stocks, t.ticker) == Some(k)
    requires db.stocks[k].quantity - t.quantity <= 0.0
    requires row == ClosedStock(0, t.ticker, NormalizeDate(t.date), NormalizeDate(t.date), db.stocks[k].quantity,
                                db.stocks[k].costBasis, t.price, SalePL(db.stocks[k].costBasis, t.price, db.stocks[k].quantity))
    ensures ReplayStock(db, t) == InsertClosedStock(db, row).(stocks := RemoveAt(db.stocks, k))
  {
  }

  /** What a smaller Sell leaves: the lot reduced, nothing recorded. */
  lemma PartialSellShape(db: Db, t: StockTrade, k: nat)
    requires t.code == Sell && LotOf(db.stocks, t.ticker) == Some(k)
    requires db.stocks[k].quantity - t.quantity > 0.0
    ensures ReplayStock(db, t) == db.(stocks := db.stocks[k := db.stocks[k].(quantity := db.stocks[k].quantity - t.quantity)])
  {
  }

  /** A Sell that empties the lot moves the lot's shares to the sales record
      (held plus sold is unchanged for the ticker) and realises
      `(price - costBasis) * held`: shares sold beyond the lot are ignored. */
  lemma FullSellConserves(db: Db, t: StockTrade, k: nat)
    requires t.code == Sell && LotOf(db.stocks, t.ticker) == Some(k)
    requires db.stocks[k].quantity - t.quantity <= 0.0
    ensures var r := ReplayStock(db, t);
            var held := db.stocks[k].quantity;
            Sum(r.stocks, Held(t.ticker)) == Sum(db.stocks, Held(t.ticker)) - held &&
            Sum(r.closedStocks, Sold(t.ticker)) == Sum(db.closedStocks, Sold(t.ticker)) + held &&
            Sum(r.closedStocks, StockPL) ==
              Sum(db.closedStocks, StockPL) + SalePL(db.stocks[k].costBasis, t.price, held)
  {
    var lot := db.stocks[k];
    var date := NormalizeDate(t.date);
    var c := ClosedStock(db.nextClosedStock, t.ticker, date, date, lot.quantity, lot.costBasis, t.price,
                         SalePL(lot.costBasis, t.price, lot.quantity));
    var r := ReplayStock(db, t);
    assert |r.closedStocks| == |db.closedStocks| + 1;
    assert r.closedStocks[|db.closedStocks|] == c;
    assert r.closedStocks == db.closedStocks + [c];
    assert r.stocks == ShrinkLot(db.stocks, k, lot.quantity);
    ShrinkLotHeld(db.stocks, k, lot.quantity);
    SumAppend(db.closedStocks, c, Sold(t.ticker));
    SumAppend(db.closedStocks, c, StockPL);
  }

  /** A Sell smaller than the lot reduces the lot but records no sale: the
      shares leave the books and no P/L is realised. */
  lemma PartialSellRecordsNothing(db: Db, t: StockTrade, k: nat)
    requires t.code == Sell && LotOf(db.stocks, t.ticker) == Some(k)
    requires db.stocks[k].quantity - t.quantity > 0.0
    ensures var r := ReplayStock(db, t);
            Sum(r.stocks, Held(t.ticker)) == Sum(db.stocks, Held(t.ticker)) - t.quantity &&
            r.closedStocks == db.closedStocks && r.nextClosedStock == db.nextClosedStock &&
            |r.stocks| == |db.stocks| && r.stocks[k].quantity == db.stocks[k].quantity - t.quantity &&
            r.stocks[k].costBasis == db.stocks[k].costBasis
  {
    ShrinkLotHeld(db.stocks, k, t.quantity);
  }

  /** An imported Buy is the add form's share purchase on the trade date. */
  lemma ImportedBuyIsAdd(db: Db, t: StockTrade)
    requires t.code == Buy && ReplayStockDefined(db, t)
    ensures var r := ReplayStock(db, t);
            Sum(r.stocks, Held(t.ticker)) == Sum(db.stocks, Held(t.ticker)) + t.quantity &&
            Sum(r.stocks, Invested(t.ticker)) == Sum(db.stocks, Invested(t.ticker)) + Cost(t.quantity, t.price) &&
            r.closedStocks == db.closedStocks
  {
    AddSharesTotals(db, t.ticker, t.quantity, t.price, NormalizeDate(t.date));
  }

  // ----- option trades -----

  /** The columns a closing trade is matched on: ticker, strike, expiry (as
      normalised) and type, compared exactly. */
  predicate MatchesTrade(p: OptionPos, ticker: string, strike: real, expDate: string, optionType: string)
  {
    p.ticker == ticker && p.strike == strike && p.expDate == expDate && p.optionType == optionType
  }

  /** `ORDER BY purchase_date ASC LIMIT 1` over the matching positions: a
      matching position with the least purchase date text, the first such
      on ties. */
  function OldestMatch(s: seq<OptionPos>, ticker: string, strike: real, expDate: string, optionType: string): (r: Option<nat>)
    ensures r.Some? ==> r.value < |s| && MatchesTrade(s[r.value], ticker, strike, expDate, optionType)
    ensures r.Some? ==> forall j :: 0 <= j < |s| && MatchesTrade(s[j], ticker, strike, expDate, optionType) ==>
                                    TextLe(s[r.value].purchaseDate, s[j].purchaseDate)
    ensures r.None? <==> forall j :: 0 <= j < |s| ==> !MatchesTrade(s[j], ticker, strike, expDate, optionType)
  {
    if s == [] then None
    else
      var front := s[..|s| - 1];
      var last := s[|s| - 1];
      var r := OldestMatch(front, ticker, strike, expDate, optionType);
      if !MatchesTrade(last, ticker, strike, expDate, optionType) then r
      else if r.None? then
        TextLeTotal(last.purchaseDate, last.purchaseDate);
        Some(|s| - 1)
      else if TextLe(front[r.value].purchaseDate, last.purchaseDate) then r
      else
        OlderThanAll(front, ticker, strike, expDate, optionType, r.value, last.purchaseDate);
        TextLeTotal(last.purchaseDate, last.purchaseDate);
        Some(|s| - 1)
  }

  /** A date before the oldest match is before every match. */
  lemma OlderThanAll(s: seq<OptionPos>, ticker: string, strike: real, expDate: string, optionType: string,
                     k: nat, date: string)
    requires k < |s| && !TextLe(s[k].purchaseDate, date)
    requires forall j :: 0 <= j < |s| && MatchesTrade(s[j], ticker, strike, expDate, optionType) ==>
                         TextLe(s[k].purchaseDate, s[j].purchaseDate)
    ensures forall j :: 0 <= j < |s| && MatchesTrade(s[j], ticker, strike, expDate, optionType) ==>
                        TextLe(date, s[j].purchaseDate)
  {
    TextLeTotal(s[k].purchaseDate, date);
    forall j | 0 <= j < |s| && MatchesTrade(s[j], ticker, strike, expDate, optionType)
      ensures TextLe(date, s[j].purchaseDate)
    {
      TextLeTrans(date, s[k].purchaseDate, s[j].purchaseDate);
    }
  }

  /** The position a closing trade closes. */
  function ClosingMatch(db: Db, t: OptionTrade): (r: Option<nat>)
    ensures r.Some? ==> r.value < |db.options|
  {
    OldestMatch(db.options, t.ticker, t.strike, NormalizeDate(t.expDate), t.optionType)
  }

  /** A closing trade's collateral share divides by the position's size. */
  predicate ReplayOptionDefined(db: Db, t: OptionTrade)
  {
    (t.code == STC || t.code == BTC) && ClosingMatch(db, t).Some? ==>
      db.options[ClosingMatch(db, t).value].quantity != 0.0
  }

  /** The P/L of closing `q` contracts by trade code: selling to close gains
      the price over the premium, buying to close the premium over the price. */
  function TradeClosePL(code: string, premium: real, price: real, q: real): real
  {
    if code == STC then (price - premium) * q else (premium - price) * q
  }

  /** The import scores a close by its trade code, the close form by the
      position's type: they agree when a long option is sold to close or a
      short one bought to close, and a positive close by STC gains exactly
      when the price beats the premium, by BTC when it stays below it. */
  lemma TradeClosePLAgrees(optionType: string, premium: real, price: real, q: real)
    ensures IsLongType(optionType) ==>
              TradeClosePL(STC, premium, price, q) == OptionClosePL(optionType, premium, price, q)
    ensures IsShortType(optionType) ==>
              TradeClosePL(BTC, premium, price, q) == OptionClosePL(optionType, premium, price, q)
    ensures q > 0.0 ==> (TradeClosePL(STC, premium, price, q) > 0.0 <==> price > premium)
    ensures q > 0.0 ==> (TradeClosePL(BTC, premium, price, q) > 0.0 <==> price < premium)
  {
    assert BTC != STC by { assert BTC[0] != STC[0]; }
    if q > 0.0 {
      OptionClosePLSign(Call, premium, price, q);
      OptionClosePLSign(CSP, premium, price, q);
    }
  }

  /** The row a closing trade records against position `pos`. */
  function TradeClosedRow(t: OptionTrade, pos: OptionPos, q: real, id: int): (c: ClosedOption)
    requires pos.quantity != 0.0
    ensures c.quantity == q && c.ticker == t.ticker && c.optionType == pos.optionType
    ensures c.premium == pos.premium && c.purchaseDate == pos.purchaseDate && c.sellPrice == t.price
    ensures c.collateral == CollateralShare(pos.collateral, pos.quantity, q)
    ensures c.profitLoss == TradeClosePL(t.code, pos.premium, t.price, q) && c.id == id
  {
    ClosedOption(id, t.ticker, t.price, pos.premium, t.strike, NormalizeDate(t.expDate), pos.optionType,
                 CollateralShare(pos.collateral, pos.quantity, q), q, pos.purchaseDate, NormalizeDate(t.date),
                 t.price, TradeClosePL(t.code, pos.premium, t.price, q))
  }

  /** One option trade and whether it is counted. BTO and STO open a
      position with no collateral, dated by the trade. STC and BTC close at
      most the matched position's size: a closed row records the contracts,
      their share of the collateral and the P/L at the trade price, and the
      position keeps the rest or is deleted. A close with no match, or any
      other code, changes nothing and is not counted. */
  function ReplayOption(db: Db, t: OptionTrade): (r: (Db, bool))
    requires ReplayOptionDefined(db, t)
    ensures r.0.stocks == db.stocks && r.0.closedStocks == db.closedStocks
    ensures r.0.nextStock == db.nextStock && r.0.nextClosedStock == db.nextClosedStock
    ensures r.1 <==> t.code == BTO || t.code == STO || ((t.code == STC || t.code == BTC) && ClosingMatch(db, t).Some?)
    ensures !r.1 ==> r.0 == db
  {
    if t.code == BTO || t.code == STO then
      (InsertOption(db, OptionPos(0, t.ticker, t.price, t.premium, t.strike, NormalizeDate(t.expDate), t.optionType,
                                  0.0, t.quantity, NormalizeDate(t.date))), true)
    else if t.code == STC || t.code == BTC then
      match ClosingMatch(db, t)
      case None => (db, false)
      case Some(k) =>
        var pos := db.options[k];
        var q := if t.quantity > pos.quantity then pos.quantity else t.quantity;
        var c := TradeClosedRow(t, pos, q, 0);
        var d := InsertClosedOption(db, c);
        (d.(options := ShrinkOption(d.options, k, q, c.collateral)), true)
    else (db, false)
  }

  /** What a closing trade against its match `k` leaves. */
  lemma CloseMatchShape(db: Db, t: OptionTrade, k: nat, q: real, row: ClosedOption)
    requires t.code == STC || t.code == BTC
    requires ClosingMatch(db, t) == Some(k) && ReplayOptionDefined(db, t)
    requires q == if t.quantity > db.options[k].quantity then db.options[k].quantity else t.quantity
    requires row == TradeClosedRow(t, db.options[k], q, 0)
    ensures ReplayOption(db, t) == (InsertClosedOption(db, row).(options := ShrinkOption(db.options, k, q, row.collateral)), true)
  {
  }

  predicate ReplayOptionsDefined(db: Db, ts: seq<OptionTrade>)
    decreases |ts|, 0
  {
    ts == [] ||
    (ReplayOptionsDefined(db, ts[..|ts| - 1]) && ReplayOptionDefined(ReplayOptions(db, ts[..|ts| - 1]).0, ts[|ts| - 1]))
  }

  /** The second loop of `HandleImportCSV`, with its counter. */
  function ReplayOptions(db: Db, ts: seq<OptionTrade>): (r: (Db, nat))
    requires ReplayOptionsDefined(db, ts)
    ensures r.0.stocks == db.stocks && r.0.closedStocks == db.closedStocks
    ensures r.1 <= |ts|
    decreases |ts|, 1
  {
    if ts == [] then (db, 0)
    else
      var (d, n) := ReplayOptions(db, ts[..|ts| - 1]);
      var (d', counted) := ReplayOption(d, ts[|ts| - 1]);
      (d', if counted then n + 1 else n)
  }

  /** Every opening trade is counted. */
  lemma {:induction false} OpensCounted(db: Db, ts: seq<OptionTrade>)
    requires ReplayOptionsDefined(db, ts)
    ensures ReplayOptions(db, ts).1 >= Count(ts, (t: OptionTrade) => t.code == BTO || t.code == STO)
  {
    if ts != [] {
      OpensCounted(db, ts[..|ts| - 1]);
    }
  }

  /** The clamped quantity a closing trade takes from a position. */
  function CloseTradeQuantity(requested: real, held: real): (r: real)
    ensures r <= held && r <= requested && (r == held || r == requested)
  {
    if requested > held then held else requested
  }

  /** A matched close of a positive quantity on a positive position moves
      exactly the clamped quantity of contracts and its collateral share from
      the open to the closed table, and realises the trade's P/L. */
  lemma OptionCloseConserves(db: Db, t: OptionTrade, k: nat)
    requires t.code == STC || t.code == BTC
    requires ClosingMatch(db, t) == Some(k) && db.options[k].quantity > 0.0 && t.quantity > 0.0
    ensures var pos := db.options[k];
            var q := CloseTradeQuantity(t.quantity, pos.quantity);
            var r := ReplayOption(db, t).0;
            var tk := pos.ticker;
            |r.closedOptions| == |db.closedOptions| + 1 &&
            r.closedOptions[|db.closedOptions|] == TradeClosedRow(t, pos, q, db.nextClosedOption) &&
            Sum(r.options, OpenContracts(tk)) + Sum(r.closedOptions, ClosedContracts(tk)) ==
              Sum(db.options, OpenContracts(tk)) + Sum(db.closedOptions, ClosedContracts(tk)) &&
            Sum(r.options, HeldCollateral(tk)) + Sum(r.closedOptions, ReleasedCollateral(tk)) ==
              Sum(db.options, HeldCollateral(tk)) + Sum(db.closedOptions, ReleasedCollateral(tk)) &&
            Sum(r.closedOptions, OptionPL) == Sum(db.closedOptions, OptionPL) + TradeClosePL(t.code, pos.premium, t.price, q)
  {
    var pos := db.options[k];
    var q := CloseTradeQuantity(t.quantity, pos.quantity);
    var c := TradeClosedRow(t, pos, q, db.nextClosedOption);
    var r := ReplayOption(db, t).0;
    assert |r.closedOptions| == |db.closedOptions| + 1;
    assert r.closedOptions[|db.closedOptions|] == c;
    assert r.closedOptions == db.closedOptions + [c];
    assert r.options == ShrinkOption(db.options, k, q, c.collateral);
    ShrinkOptionContracts(db.options, k, q, c.collateral);
    ShrinkOptionCollateral(db.options, k, q, c.collateral);
    SumAppend(db.closedOptions, c, ClosedContracts(pos.ticker));
    SumAppend(db.closedOptions, c, ReleasedCollateral(pos.ticker));
    SumAppend(db.closedOptions, c, OptionPL);
  }

  /** An option trade the export can produce keeps the ledger invariant. */
  lemma ReplayOptionKeeps(db: Db, t: OptionTrade)
    requires LedgerOk(db) && GoodOptionTrade(t)
    ensures ReplayOptionDefined(db, t)
    ensures LedgerOk(ReplayOption(db, t).0)
  {
    if t.code == BTO || t.code == STO {
      var r := ReplayOption(db, t).0;
      var p := r.options[|db.options|];
      assert r.options == db.options + [p];
      KeyedAppend(db.options, OptionKey, db.nextOption, p);
    } else {
      match ClosingMatch(db, t)
      case None =>
      case Some(k) =>
        var pos := db.options[k];
        var q := CloseTradeQuantity(t.quantity, pos.quantity);
        var c := TradeClosedRow(t, pos, q, db.nextClosedOption);
        var r := ReplayOption(db, t).0;
        assert |r.closedOptions| == |db.closedOptions| + 1;
        assert r.closedOptions[|db.closedOptions|] == c;
        assert r.closedOptions == db.closedOptions + [c];
        KeyedAppend(db.closedOptions, ClosedOptionKey, db.nextClosedOption, c);
        ShrinkOptionKeeps(db.options, k, q, c.collateral, db.nextOption);
    }
  }

  lemma {:induction false} ReplayOptionsKeeps(db: Db, ts: seq<OptionTrade>)
    requires LedgerOk(db) && GoodOptionTrades(ts)
    ensures ReplayOptionsDefined(db, ts)
    ensures LedgerOk(ReplayOptions(db, ts).0)
  {
    if ts != [] {
      var front := ts[..|ts| - 1];
      assert GoodOptionTrades(front) by {
        forall t | t in front ensures GoodOptionTrade(t) { assert t in ts; }
      }
      ReplayOptionsKeeps(db, front);
      ReplayOptionKeeps(ReplayOptions(db, front).0, ts[|ts| - 1]);
    }
  }

  lemma {:induction false} ReplayOptionsPrefix(db: Db, ts: seq<OptionTrade>, n: nat)
    requires ReplayOptionsDefined(db, ts) && n <= |ts|
    ensures ReplayOptionsDefined(db, ts[..n])
    decreases |ts|
  {
    if n < |ts| {
      assert ts[..|ts| - 1][..n] == ts[..n];
      ReplayOptionsPrefix(db, ts[..|ts| - 1], n);
    } else {
      assert ts[..n] == ts;
    }
  }

  /** One more step of the second loop. */
  lemma ReplayOptionsStep(db: Db, ts: seq<OptionTrade>, j: nat)
    requires j < |ts| && ReplayOptionsDefined(db, ts[..j + 1])
    ensures ReplayOptionsDefined(db, ts[..j])
    ensures ReplayOptionDefined(ReplayOptions(db, ts[..j]).0, ts[j])
    ensures var step := ReplayOption(ReplayOptions(db, ts[..j]).0, ts[j]);
            ReplayOptions(db, ts[..j + 1]).0 == step.0 &&
            ReplayOptions(db, ts[..j + 1]).1 == ReplayOptions(db, ts[..j]).1 + (if step.1 then 1 else 0)
  {
    assert ts[..j + 1][..j] == ts[..j];
  }

  /** A short put opened by an import keeps the brokerage type `Put`: closed
      through the close form it is then scored as a long option, with the
      sign of its P/L reversed against the import's buy-to-close. */
  lemma ImportedShortPutScoredLong(premium: real, price: real, q: real)
    ensures OptionClosePL(Put, premium, price, q) == -TradeClosePL(BTC, premium, price, q)
  {
  }

  // ----- the whole import -----

  /** The outcome of an import: the ledger and the two counts reported. */
  datatype Imported = Imported(db: Db, stockCount: nat, optionCount: nat)

  predicate ImportDefined(db: Db, trades: ImportedTrades)
  {
    ReplayStocksDefined(db, trades.stockTrades) &&
    ReplayOptionsDefined(ReplayStocks(db, trades.stockTrades), trades.optionTrades)
  }

  /** Both loops: every share trade is counted, replayed or not. */
  function ReplayAll(db: Db, trades: ImportedTrades): (r: Imported)
    requires ImportDefined(db, trades)
    ensures r.stockCount == |trades.stockTrades| && r.optionCount <= |trades.optionTrades|
  {
    var d := ReplayStocks(db, trades.stockTrades);
    var (d', n) := ReplayOptions(d, trades.optionTrades);
    Imported(d', |trades.stockTrades|, n)
  }

  /** Whether the replay of an export is defined: a refused file changes nothing. */
  predicate ImportCsvDefined(db: Db, csv: string)
  {
    ParseBrokerageSpec(csv).Ok? ==> ImportDefined(db, ParseBrokerageSpec(csv).value)
  }

  /** `HandleImportCSV`: a refused export is reported and changes nothing;
      otherwise its trades are replayed. */
  function ImportCsv(db: Db, csv: string): (r: Result<Imported, CsvError>)
    requires ImportCsvDefined(db, csv)
    ensures r.Err? <==> |ParseSpec(csv)| < 2
    ensures r.Ok? ==> r.value.stockCount + r.value.optionCount <= |ParseSpec(csv)| - 1
  {
    ImportedTradesGood(csv);
    match ParseBrokerageSpec(csv)
    case Err(e) => Err(e)
    case Ok(trades) =>
      ClassifiedTradesGood(ParseSpec(csv)[1..]);
      Ok(ReplayAll(db, trades))
  }

  /** Any export imported into a ledger keeping the invariant is replayed
      without a zero divisor and leaves the invariant kept. */
  lemma ImportKeeps(db: Db, csv: string)
    requires LedgerOk(db)
    ensures ImportCsvDefined(db, csv)
    ensures ImportCsv(db, csv).Ok? ==> LedgerOk(ImportCsv(db, csv).value.db)
  {
    ImportedTradesGood(csv);
    if ParseBrokerageSpec(csv).Ok? {
      var trades := ParseBrokerageSpec(csv).value;
      ReplayStocksKeeps(db, trades.stockTrades);
      ReplayOptionsKeeps(ReplayStocks(db, trades.stockTrades), trades.optionTrades);
    }
  }
}
