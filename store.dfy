/** The per-user ledger as the handlers use it: four tables and their
    AUTOINCREMENT counters, updated in place one SQL statement at a time.
    Each handler method reads its form values (tickers upper-cased where the
    handler does so, numbers through `ParseFloat` with the error ignored,
    blank dates defaulting to `today`), changes the tables the way the
    handler's statements do, and is proved to end in the state the matching
    ledger function of Positions, History or CsvImport describes. The list
    handlers receive the rows their SELECT returned and are proved to return
    the listing of Listings. */
module Store {
  import opened Seqs
  import opened Text
  import opened Types
  import opened Tables
  import opened Decimal
  import opened Dates
  import opened Positions
  import opened History
  import opened Brokerage
  import opened CsvImport
  import opened Listings

  /** A date field left blank is today's date (`time.Now()`, formatted as
      `2006-01-02`). */
  function FormDate(text: string, today: string): string
  {
    if text == "" then today else text
  }

  /** The close form's quantity: absent when blank, else parsed (0 when it
      is not a number). */
  function FormQuantity(text: string): Option<real>
  {
    if text == "" then None else Some(ParseFloatOrZero(text))
  }

  /** The loop every list handler runs over its query's rows: keep, in
      order, the rows whose date is in the requested range. */
  method KeepRows<T(!new)>(rows: seq<T>, keep: T -> bool) returns (out: seq<T>)
    ensures out == Filter(rows, keep)
  {
    out := [];
    var i := 0;
    while i < |rows|
      invariant 0 <= i <= |rows|
      invariant out == Filter(rows[..i], keep)
    {
      assert rows[..i + 1][..i] == rows[..i];
      if keep(rows[i]) {
        out := out + [rows[i]];
      }
      i := i + 1;
    }
    assert rows[..|rows|] == rows;
  }

  class Ledger {
    var stocks: seq<StockPos>
    var options: seq<OptionPos>
    var closedStocks: seq<ClosedStock>
    var closedOptions: seq<ClosedOption>
    var nextStock: int
    var nextOption: int
    var nextClosedStock: int
    var nextClosedOption: int

    /** The tables as a value. */
    function State(): Db
      reads this
    {
      Db(stocks, options, closedStocks, closedOptions, nextStock, nextOption, nextClosedStock, nextClosedOption)
    }

    /** A new user's ledger: empty tables, every counter at 1. */
    constructor ()
      ensures State() == Empty
      ensures LedgerOk(State())
    {
      stocks, options, closedStocks, closedOptions := [], [], [], [];
      nextStock, nextOption, nextClosedStock, nextClosedOption := 1, 1, 1, 1;
      EmptyLedgerOk();
    }

    // ----- single statements -----

    /** `INSERT INTO stock_positions`: the row gets the next id. */
    method AppendStock(p: StockPos)
      modifies this
      ensures State() == InsertStock(old(State()), p)
    {
      stocks := stocks + [p.(id := nextStock)];
      nextStock := nextStock + 1;
    }

    method AppendOption(p: OptionPos)
      modifies this
      ensures State() == InsertOption(old(State()), p)
    {
      options := options + [p.(id := nextOption)];
      nextOption := nextOption + 1;
    }

    method AppendClosedStock(c: ClosedStock)
      modifies this
      ensures State() == InsertClosedStock(old(State()), c)
    {
      closedStocks := closedStocks + [c.(id := nextClosedStock)];
      nextClosedStock := nextClosedStock + 1;
    }

    method AppendClosedOption(c: ClosedOption)
      modifies this
      ensures State() == InsertClosedOption(old(State()), c)
    {
      closedOptions := closedOptions + [c.(id := nextClosedOption)];
      nextClosedOption := nextClosedOption + 1;
    }

    /** `UPDATE stock_positions SET quantity = ?` with what remains of lot
      `k`, or `DELETE` when nothing does. */
    method ShrinkLotAt(k: nat, q: real)
      requires k < |stocks|
      modifies this
      ensures State() == old(State()).(stocks := ShrinkLot(old(stocks), k, q))
    {
      var remaining := stocks[k].quantity - q;
      if remaining > 0.0 {
        stocks := stocks[k := stocks[k].(quantity := remaining)];
      } else {
        stocks := RemoveAt(stocks, k);
      }
    }

    /** The same for option `k`, which also gives up `share` of its collateral. */
    method ShrinkOptionAt(k: nat, q: real, share: real)
      requires k < |options|
      modifies this
      ensures State() == old(State()).(options := ShrinkOption(old(options), k, q, share))
    {
      var remaining := options[k].quantity - q;
      if remaining > 0.0 {
        options := options[k := options[k].(quantity := remaining, collateral := options[k].collateral - share)];
      } else {
        options := RemoveAt(options, k);
      }
    }

    /** The lookup by ticker, then the merge `UPDATE` or the `INSERT`. */
    method BuyShares(ticker: string, quantity: real, price: real, openDate: string)
      requires MergeDefined(stocks, ticker, quantity)
      modifies this
      ensures State() == AddShares(old(State()), ticker, quantity, price, openDate)
    {
      var found := LotOf(stocks, ticker);
      match found {
        case Some(k) =>
          var lot := stocks[k];
          var totalQuantity := lot.quantity + quantity;
          stocks := stocks[k := lot.(quantity := totalQuantity,
                                     costBasis := WeightedAverage(lot.quantity, lot.costBasis, quantity, price))];
        case None =>
          AppendStock(StockPos(0, openDate, ticker, quantity, price));
      }
    }

    /** The closed_stocks lookup by ticker and open date, then the blending
      `UPDATE` or the `INSERT`. */
    method RecordSaleRow(ticker: string, openDate: string, closeDate: string,
                         q: real, costBasis: real, sellPrice: real)
      requires BlendDefined(closedStocks, ticker, openDate, q)
      modifies this
      ensures State() == RecordSale(old(State()), ticker, openDate, closeDate, q, costBasis, sellPrice)
    {
      var pl := SalePL(costBasis, sellPrice, q);
      var found := SaleOf(closedStocks, ticker, openDate);
      match found {
        case Some(k) =>
          var c := closedStocks[k];
          closedStocks := closedStocks[k := c.(quantity := c.quantity + q,
                                               costBasis := WeightedAverage(c.quantity, c.costBasis, q, costBasis),
                                               sellPrice := WeightedAverage(c.quantity, c.sellPrice, q, sellPrice),
                                               profitLoss := c.profitLoss + pl, closeDate := closeDate)];
        case None =>
          AppendClosedStock(ClosedStock(0, ticker, openDate, closeDate, q, costBasis, sellPrice, pl));
      }
    }

    /** The `called_away` statements: sell `shares` of the ticker's lot. */
    method CallAwayShares(ticker: string, shares: real, sharePrice: real, closeDate: string)
      modifies this
      ensures State() == CallAway(old(State()), ticker, shares, sharePrice, closeDate)
    {
      var found := LotOf(stocks, ticker);
      match found {
        case Some(k) =>
          var lot := stocks[k];
          if lot.quantity >= shares {
            AppendClosedStock(ClosedStock(0, ticker, lot.openDate, closeDate, shares, lot.costBasis, sharePrice,
                                          SalePL(lot.costBasis, sharePrice, shares)));
            ShrinkLotAt(k, shares);
          }
        case None =>
      }
    }

    // ----- the position handlers -----

    /** `HandleAddPosition`: a `stock` form buys shares, an `option` form
      opens an option priced at its premium, any other position type does
      nothing. */
    method AddPosition(positionType: string, tickerText: string, quantityText: string, costBasisText: string,
                       openDateText: string, optionType: string, strikeText: string, premiumText: string,
                       expDate: string, today: string)
      requires positionType == "stock" ==>
                 MergeDefined(stocks, ToUpper(tickerText), ParseFloatOrZero(quantityText))
      modifies this
      ensures positionType == "stock" ==>
                State() == AddShares(old(State()), ToUpper(tickerText), ParseFloatOrZero(quantityText),
                                     ParseFloatOrZero(costBasisText), FormDate(openDateText, today))
      ensures positionType == "option" ==>
                State() == OpenOption(old(State()), ToUpper(tickerText), optionType, ParseFloatOrZero(strikeText),
                                      ParseFloatOrZero(premiumText), ParseFloatOrZero(quantityText), expDate,
                                      FormDate(openDateText, today))
      ensures positionType != "stock" && positionType != "option" ==> State() == old(State())
      ensures LedgerOk(old(State())) && ParseFloatOrZero(quantityText) > 0.0 ==> LedgerOk(State())
    {
      ghost var before := State();
      var ticker := ToUpper(tickerText);
      var quantity := ParseFloatOrZero(quantityText);
      var costBasis := ParseFloatOrZero(costBasisText);
      var openDate := if openDateText == "" then today else openDateText;
      if positionType == "stock" {
        BuyShares(ticker, quantity, costBasis, openDate);
        if LedgerOk(before) && quantity > 0.0 {
          AddSharesKeeps(before, ticker, quantity, costBasis, openDate);
        }
      } else if positionType == "option" {
        var strike := ParseFloatOrZero(strikeText);
        var premium := ParseFloatOrZero(premiumText);
        OpenOptionRow(ticker, optionType, strike, premium, quantity, expDate, openDate);
        if LedgerOk(before) && quantity > 0.0 {
          OpenOptionKeeps(before, ticker, optionType, strike, premium, quantity, expDate, openDate);
        }
      }
    }

    /** The add form's option branch: the collateral by type, then the `INSERT`. */
    method OpenOptionRow(ticker: string, optionType: string, strike: real, premium: real, quantity: real,
                         expDate: string, purchaseDate: string)
      modifies this
      ensures State() == OpenOption(old(State()), ticker, optionType, strike, premium, quantity, expDate, purchaseDate)
    {
      var collateral := 0.0;
      if optionType == CSP {
        collateral := strike * 100.0;
      } else if optionType == CC {
        var found := LotOf(stocks, ticker);
        if found.Some? && stocks[found.value].quantity >= 100.0 {
          collateral := stocks[found.value].costBasis * 100.0;
        }
      }
      assert collateral == OpeningCollateral(stocks, ticker, optionType, strike);
      AppendOption(OptionPos(0, ticker, premium, premium, strike, expDate, optionType, collateral, quantity, purchaseDate));
    }

    /** `HandleCloseStockPosition`: an unknown lot is `NotFound` and changes
      nothing; otherwise the sale is recorded and the lot shrinks. */
    method CloseStockPosition(id: int, quantityText: string, sellPriceText: string,
                              closeDateText: string, today: string) returns (err: Option<CloseError>)
      requires CloseStockDefined(State(), id, FormQuantity(quantityText))
      modifies this
      ensures match CloseStock(old(State()), id, FormQuantity(quantityText), ParseFloatOrZero(sellPriceText),
                               FormDate(closeDateText, today))
              case Err(e) => err == Some(e) && State() == old(State())
              case Ok(d) => err.None? && State() == d
      ensures LedgerOk(old(State())) ==> LedgerOk(State())
    {
      ghost var before := State();
      var requested := if quantityText == "" then None else Some(ParseFloatOrZero(quantityText));
      var sellPrice := ParseFloatOrZero(sellPriceText);
      var closeDate := if closeDateText == "" then today else closeDateText;
      var found := ByKey(stocks, StockKey, id);
      match found {
        case None =>
          err := Some(NotFound);
        case Some(k) =>
          var lot := stocks[k];
          var q := CloseQuantity(requested, lot.quantity);
          RecordSaleRow(lot.ticker, lot.openDate, closeDate, q, lot.costBasis, sellPrice);
          ShrinkLotAt(k, q);
          err := None;
      }
      if LedgerOk(before) {
        CloseStockKeeps(before, id, requested, sellPrice, closeDate);
      }
    }

    /** `HandleCloseOptionPosition`: an unknown position is `NotFound`, a
      quantity outside (0, held] is `InvalidQuantity`, and neither changes
      anything; otherwise the outcome's stock statements run, the closed
      row is inserted, and the position shrinks. */
    method CloseOptionPosition(id: int, outcome: string, quantityText: string, sellPriceText: string,
                               sharePriceText: string, closeDateText: string, today: string)
      returns (err: Option<CloseError>)
      requires CloseOptionDefined(State(), id, outcome, ParseFloatOrZero(quantityText))
      modifies this
      ensures match CloseOption(old(State()), id, outcome, ParseFloatOrZero(quantityText),
                                ParseFloatOrZero(sellPriceText), ParseFloatOrZero(sharePriceText),
                                FormDate(closeDateText, today))
              case Err(e) => err == Some(e) && State() == old(State())
              case Ok(d) => err.None? && State() == d
      ensures LedgerOk(old(State())) ==> LedgerOk(State())
    {
      ghost var before := State();
      var q := ParseFloatOrZero(quantityText);
      var sellPrice := ParseFloatOrZero(sellPriceText);
      var sharePrice := ParseFloatOrZero(sharePriceText);
      var closeDate := if closeDateText == "" then today else closeDateText;
      var found := ByKey(options, OptionKey, id);
      match found {
        case None =>
          err := Some(NotFound);
        case Some(k) =>
          if q <= 0.0 || q > options[k].quantity {
            err := Some(InvalidQuantity);
          } else {
            CloseContracts(id, k, outcome, q, sellPrice, sharePrice, closeDate);
            err := None;
          }
      }
      if LedgerOk(before) {
        CloseOptionKeeps(before, id, outcome, q, sellPrice, sharePrice, closeDate);
      }
    }

    /** The statements of a valid option close: the outcome's stock
      statements, the closed row's `INSERT`, the position's shrink. */
    method CloseContracts(id: int, k: nat, outcome: string, q: real, sellPrice: real, sharePrice: real,
                          closeDate: string)
      requires CloseOptionDefined(State(), id, outcome, q) && ByKey(options, OptionKey, id) == Some(k)
      requires 0.0 < q <= options[k].quantity
      modifies this
      ensures CloseOption(old(State()), id, outcome, q, sellPrice, sharePrice, closeDate).Ok?
      ensures State() == CloseOption(old(State()), id, outcome, q, sellPrice, sharePrice, closeDate).value
    {
      ghost var before := State();
      var pos := options[k];
      var sell := OutcomeSellPrice(outcome, sellPrice);
      var date := OutcomeCloseDate(outcome, pos.expDate, closeDate);
      if outcome == CalledAway {
        CallAwayShares(pos.ticker, q * 100.0, sharePrice, date);
      } else if outcome == Assigned {
        BuyShares(pos.ticker, q * 100.0, pos.strike, date);
      }
      ghost var d := OutcomeShares(before, outcome, pos, q, sharePrice, date);
      assert State() == d;
      var share := CollateralShare(pos.collateral, pos.quantity, q);
      var row := ClosedOption(0, pos.ticker, pos.price, pos.premium, pos.strike, pos.expDate,
                              pos.optionType, share, q, pos.purchaseDate, date, sell,
                              OptionClosePL(pos.optionType, pos.premium, sell, q));
      AppendClosedOption(row);
      ShrinkOptionAt(k, q, share);
      assert State() == InsertClosedOption(d, row).(options := ShrinkOption(d.options, k, q, share));
      assert CloseOption(before, id, outcome, q, sellPrice, sharePrice, closeDate) ==
             Ok(InsertClosedOption(d, row).(options := ShrinkOption(d.options, k, q, share)));
    }

    /** `HandleUpdateStockPosition`: the `UPDATE` of lot `id`, refused by the
      UNIQUE constraint on (ticker, open date). Editing can break one lot
      per ticker, so only the weaker invariant is kept. */
    method UpdateStockPosition(id: int, tickerText: string, quantityText: string, costBasisText: string,
                               openDate: string) returns (err: Option<UpdateError>)
      modifies this
      ensures match UpdateStock(old(State()), id, ToUpper(tickerText), ParseFloatOrZero(quantityText),
                                ParseFloatOrZero(costBasisText), openDate)
              case Err(e) => err == Some(e) && State() == old(State())
              case Ok(d) => err.None? && State() == d
      ensures EditableOk(old(State())) ==> EditableOk(State())
    {
      ghost var before := State();
      var ticker := ToUpper(tickerText);
      var quantity := ParseFloatOrZero(quantityText);
      var costBasis := ParseFloatOrZero(costBasisText);
      err := None;
      var found := ByKey(stocks, StockKey, id);
      match found {
        case None =>
        case Some(k) =>
          if exists j :: 0 <= j < |stocks| && j != k && stocks[j].ticker == ticker && stocks[j].openDate == openDate {
            err := Some(DuplicateLot);
          } else {
            stocks := stocks[k := StockPos(id, openDate, ticker, quantity, costBasis)];
          }
      }
      if EditableOk(before) {
        UpdateStockKeeps(before, id, ticker, quantity, costBasis, openDate);
      }
    }

    /** `HandleUpdateOptionPosition`: overwrite option `id`, collateral 0. */
    method UpdateOptionPosition(id: int, tickerText: string, optionType: string, strikeText: string,
                                premiumText: string, priceText: string, expDate: string, purchaseDate: string)
      modifies this
      ensures State() == UpdateOption(old(State()), id, ToUpper(tickerText), optionType, ParseFloatOrZero(strikeText),
                                      ParseFloatOrZero(premiumText), ParseFloatOrZero(priceText), expDate, purchaseDate)
      ensures LedgerOk(old(State())) ==> LedgerOk(State())
    {
      ghost var before := State();
      var ticker := ToUpper(tickerText);
      var strike := ParseFloatOrZero(strikeText);
      var premium := ParseFloatOrZero(premiumText);
      var price := ParseFloatOrZero(priceText);
      var collateral := 0.0;
      var found := ByKey(options, OptionKey, id);
      match found {
        case None =>
        case Some(k) =>
          options := options[k := OptionPos(id, ticker, price, premium, strike, expDate, optionType, collateral,
                                            options[k].quantity, purchaseDate)];
      }
      if LedgerOk(before) {
        UpdateOptionKeeps(before, id, ticker, optionType, strike, premium, price, expDate, purchaseDate);
      }
    }

    /** `HandleDeleteStockPosition`. */
    method DeleteStockPosition(id: int)
      modifies this
      ensures State() == DeleteStock(old(State()), id)
      ensures LedgerOk(old(State())) ==> LedgerOk(State())
    {
      ghost var before := State();
      var found := ByKey(stocks, StockKey, id);
      match found {
        case None =>
        case Some(k) => stocks := RemoveAt(stocks, k);
      }
      if LedgerOk(before) {
        DeleteStockKeeps(before, id);
      }
    }

    /** `HandleDeleteOptionPosition`. */
    method DeleteOptionPosition(id: int)
      modifies this
      ensures State() == DeleteOption(old(State()), id)
      ensures LedgerOk(old(State())) ==> LedgerOk(State())
    {
      ghost var before := State();
      var found := ByKey(options, OptionKey, id);
      match found {
        case None =>
        case Some(k) => options := RemoveAt(options, k);
      }
      if LedgerOk(before) {
        DeleteOptionKeeps(before, id);
      }
    }

    // ----- the history handlers -----

    /** `HandleUpdateClosedStock`: the ticker is stored as typed and the P/L
      recomputed from the submitted numbers. */
    method UpdateClosedStock(id: int, ticker: string, quantityText: string, costBasisText: string,
                             sellPriceText: string, openDate: string, closeDate: string)
      modifies this
      ensures State() == EditClosedStock(old(State()), id, ticker, ParseFloatOrZero(quantityText),
                                         ParseFloatOrZero(costBasisText), ParseFloatOrZero(sellPriceText),
                                         openDate, closeDate)
      ensures LedgerOk(old(State())) ==> LedgerOk(State())
    {
      ghost var before := State();
      var quantity := ParseFloatOrZero(quantityText);
      var costBasis := ParseFloatOrZero(costBasisText);
      var sellPrice := ParseFloatOrZero(sellPriceText);
      var profitLoss := SalePL(costBasis, sellPrice, quantity);
      var found := ByKey(closedStocks, ClosedStockKey, id);
      match found {
        case None =>
        case Some(k) =>
          closedStocks := closedStocks[k := ClosedStock(id, ticker, openDate, closeDate, quantity, costBasis,
                                                        sellPrice, profitLoss)];
      }
      if LedgerOk(before) {
        EditClosedStockKeeps(before, id, ticker, quantity, costBasis, sellPrice, openDate, closeDate);
      }
    }

    /** `HandleDeleteClosedStock`. */
    method DeleteClosedStockRow(id: int)
      modifies this
      ensures State() == DeleteClosedStock(old(State()), id)
      ensures LedgerOk(old(State())) ==> LedgerOk(State())
    {
      ghost var before := State();
      var found := ByKey(closedStocks, ClosedStockKey, id);
      match found {
        case None =>
        case Some(k) => closedStocks := RemoveAt(closedStocks, k);
      }
      if LedgerOk(before) {
        DeleteClosedStockKeeps(before, id);
      }
    }

    /** `HandleUpdateClosedOption`: every submitted column is written, the
      quantity kept, and the P/L recomputed by the lower-case type. */
    method UpdateClosedOption(id: int, ticker: string, optionType: string, strikeText: string, premiumText: string,
                              priceText: string, collateralText: string, sellPriceText: string,
                              expDate: string, purchaseDate: string, closeDate: string)
      modifies this
      ensures State() == EditClosedOption(old(State()), id, ticker, optionType, ParseFloatOrZero(strikeText),
                                          ParseFloatOrZero(premiumText), ParseFloatOrZero(priceText),
                                          ParseFloatOrZero(collateralText), ParseFloatOrZero(sellPriceText),
                                          expDate, purchaseDate, closeDate)
      ensures LedgerOk(old(State())) ==> LedgerOk(State())
    {
      ghost var before := State();
      var strike := ParseFloatOrZero(strikeText);
      var premium := ParseFloatOrZero(premiumText);
      var price := ParseFloatOrZero(priceText);
      var collateral := ParseFloatOrZero(collateralText);
      var sellPrice := ParseFloatOrZero(sellPriceText);
      var profitLoss := 0.0;
      if optionType == "call" || optionType == "put" {
        profitLoss := sellPrice - premium;
      } else if optionType == "csp" || optionType == "cc" {
        profitLoss := premium - sellPrice;
      }
      var found := ByKey(closedOptions, ClosedOptionKey, id);
      assert profitLoss == EditedOptionPL(optionType, premium, sellPrice);
      match found {
        case None =>
        case Some(k) =>
          var row := closedOptions[k].(ticker := ticker, optionType := optionType,
                                       strike := strike, premium := premium, price := price,
                                       collateral := collateral, sellPrice := sellPrice,
                                       expDate := expDate, purchaseDate := purchaseDate,
                                       closeDate := closeDate, profitLoss := profitLoss);
          assert row == EditedOption(closedOptions[k], ticker, optionType, strike, premium, price, collateral,
                                     sellPrice, expDate, purchaseDate, closeDate);
          closedOptions := closedOptions[k := row];
      }
      assert State() == EditClosedOption(before, id, ticker, optionType, strike, premium, price, collateral,
                                         sellPrice, expDate, purchaseDate, closeDate);
      if LedgerOk(before) {
        EditClosedOptionKeeps(before, id, ticker, optionType, strike, premium, price, collateral, sellPrice,
                              expDate, purchaseDate, closeDate);
      }
    }

    /** `HandleDeleteClosedOption`. */
    method DeleteClosedOptionRow(id: int)
      modifies this
      ensures State() == DeleteClosedOption(old(State()), id)
      ensures LedgerOk(old(State())) ==> LedgerOk(State())
    {
      ghost var before := State();
      var found := ByKey(closedOptions, ClosedOptionKey, id);
      match found {
        case None =>
        case Some(k) => closedOptions := RemoveAt(closedOptions, k);
      }
      if LedgerOk(before) {
        DeleteClosedOptionKeeps(before, id);
      }
    }

    // ----- the import -----

    /** One share trade of the first import loop: the ticker's lot is
      looked up, a Buy merges into it or opens one, a Sell reduces it. */
    method ImportStockTrade(t: StockTrade)
      requires ReplayStockDefined(State(), t)
      modifies this
      ensures State() == ReplayStock(old(State()), t)
    {
      var date := NormalizeDate(t.date);
      var found := LotOf(stocks, t.ticker);
      if t.code == Buy {
        BuyShares(t.ticker, t.quantity, t.price, date);
      } else if t.code == Sell && found.Some? {
        SellFromLot(found.value, t, date);
      }
    }

    /** A Sell against lot `k`: at or beyond its size the lot's shares are
      recorded as sold and the lot deleted, else the lot keeps the rest. */
    method SellFromLot(k: nat, t: StockTrade, date: string)
      requires t.code == Sell && LotOf(stocks, t.ticker) == Some(k) && date == NormalizeDate(t.date)
      modifies this
      ensures State() == ReplayStock(old(State()), t)
    {
      var lot := stocks[k];
      var newQuantity := lot.quantity - t.quantity;
      if newQuantity <= 0.0 {
        var row := ClosedStock(0, t.ticker, date, date, lot.quantity, lot.costBasis, t.price,
                               SalePL(lot.costBasis, t.price, lot.quantity));
        FullSellShape(State(), t, k, row);
        SellWholeLot(k, row);
      } else {
        PartialSellShape(State(), t, k);
        stocks := stocks[k := lot.(quantity := newQuantity)];
      }
    }

    /** The sale's `INSERT` into closed_stocks, then the lot's `DELETE`. */
    method SellWholeLot(k: nat, row: ClosedStock)
      requires k < |stocks|
      modifies this
      ensures State() == InsertClosedStock(old(State()), row).(stocks := RemoveAt(old(stocks), k))
    {
      AppendClosedStock(row);
      stocks := RemoveAt(stocks, k);
    }

    /** One option trade of the second import loop, and whether it is counted. */
    method ImportOptionTrade(t: OptionTrade) returns (counted: bool)
      requires ReplayOptionDefined(State(), t)
      modifies this
      ensures (State(), counted) == ReplayOption(old(State()), t)
    {
      var date := NormalizeDate(t.date);
      var expDate := NormalizeDate(t.expDate);
      counted := false;
      if t.code == BTO || t.code == STO {
        AppendOption(OptionPos(0, t.ticker, t.price, t.premium, t.strike, expDate, t.optionType, 0.0,
                               t.quantity, date));
        counted := true;
      } else if t.code == STC || t.code == BTC {
        var found := OldestMatch(options, t.ticker, t.strike, expDate, t.optionType);
        if found.Some? {
          CloseFromMatch(found.value, t);
          counted := true;
        }
      }
    }

    /** A closing trade against its matched position `k`. */
    method CloseFromMatch(k: nat, t: OptionTrade)
      requires t.code == STC || t.code == BTC
      requires ClosingMatch(State(), t) == Some(k) && ReplayOptionDefined(State(), t)
      modifies this
      ensures (State(), true) == ReplayOption(old(State()), t)
    {
      var pos := options[k];
      var q := t.quantity;
      if q > pos.quantity {
        q := pos.quantity;
      }
      var row := TradeClosedRow(t, pos, q, 0);
      CloseMatchShape(State(), t, k, q, row);
      AppendClosedOption(row);
      ShrinkOptionAt(k, q, row.collateral);
    }

    /** The first import loop: every share trade replayed, and counted. */
    method ImportStockTrades(ts: seq<StockTrade>) returns (stockCount: nat)
      requires ReplayStocksDefined(State(), ts)
      modifies this
      ensures State() == ReplayStocks(old(State()), ts) && stockCount == |ts|
    {
      ghost var before := State();
      stockCount := 0;
      var i := 0;
      while i < |ts|
        invariant 0 <= i <= |ts| && stockCount == i
        invariant ReplayStocksDefined(before, ts[..i])
        invariant State() == ReplayStocks(before, ts[..i])
      {
        ReplayStocksPrefix(before, ts, i + 1);
        assert ts[..i + 1][..i] == ts[..i];
        ImportStockTrade(ts[i]);
        stockCount := stockCount + 1;
        i := i + 1;
      }
      assert ts[..|ts|] == ts;
    }

    /** The second import loop, counting the trades that open or close. */
    method ImportOptionTrades(ts: seq<OptionTrade>) returns (optionCount: nat)
      requires ReplayOptionsDefined(State(), ts)
      modifies this
      ensures (State(), optionCount) == ReplayOptions(old(State()), ts)
    {
      ghost var before := State();
      optionCount := 0;
      var j := 0;
      while j < |ts|
        invariant 0 <= j <= |ts|
        invariant ReplayOptionsDefined(before, ts[..j])
        invariant State() == ReplayOptions(before, ts[..j]).0 && optionCount == ReplayOptions(before, ts[..j]).1
      {
        ReplayOptionsPrefix(before, ts, j + 1);
        ReplayOptionsStep(before, ts, j);
        var counted := ImportOptionTrade(ts[j]);
        if counted {
          optionCount := optionCount + 1;
        }
        j := j + 1;
      }
      assert ts[..|ts|] == ts;
    }

    /** `HandleImportCSV`: a refused export changes nothing; otherwise every
      share trade is replayed and counted, then every option trade is
      replayed and counted when it opens or closes a position. */
    method ImportCsv(csv: string) returns (r: Result<(nat, nat), CsvError>)
      requires ImportCsvDefined(State(), csv)
      modifies this
      ensures match CsvImport.ImportCsv(old(State()), csv)
              case Err(e) => r == Err(e) && State() == old(State())
              case Ok(im) => r == Ok((im.stockCount, im.optionCount)) && State() == im.db
      ensures LedgerOk(old(State())) ==> LedgerOk(State())
    {
      ghost var before := State();
      var parsed := ParseBrokerageCsv(csv);
      match parsed {
        case Err(e) =>
          r := Err(e);
        case Ok(trades) =>
          var stockCount := ImportStockTrades(trades.stockTrades);
          var optionCount := ImportOptionTrades(trades.optionTrades);
          r := Ok((stockCount, optionCount));
      }
      if LedgerOk(before) {
        ImportKeeps(before, csv);
      }
    }

    // ----- the list handlers -----

    /** `HandleGetStockPositions`, given the rows of its SELECT. */
    method StockPositions(search: string, dateFrom: string, dateTo: string, rows: seq<StockPos>)
      returns (out: seq<StockPos>)
      requires QueryResult(rows, stocks, StockWhere(ToUpper(search)), OpenDateKey)
      ensures Listing(out, stocks, StockWhere(ToUpper(search)), StockInRange(dateFrom, dateTo), OpenDateKey)
    {
      out := KeepRows(rows, StockInRange(dateFrom, dateTo));
      KeepFromQuery(rows, stocks, StockWhere(ToUpper(search)), StockInRange(dateFrom, dateTo), OpenDateKey);
    }

    /** `HandleGetOptionPositions`. */
    method OptionPositions(search: string, optionType: string, dateFrom: string, dateTo: string,
                           rows: seq<OptionPos>) returns (out: seq<OptionPos>)
      requires QueryResult(rows, options, OptionWhere(ToUpper(search), optionType), PurchaseDateKey)
      ensures Listing(out, options, OptionWhere(ToUpper(search), optionType), OptionInRange(dateFrom, dateTo),
                      PurchaseDateKey)
    {
      out := KeepRows(rows, OptionInRange(dateFrom, dateTo));
      KeepFromQuery(rows, options, OptionWhere(ToUpper(search), optionType), OptionInRange(dateFrom, dateTo),
                    PurchaseDateKey);
    }

    /** `HandlePositionsFilter`: with a type filter no stock is queried or
      listed. */
    method PositionsFilter(search: string, optionType: string, dateFrom: string, dateTo: string,
                           stockRows: seq<StockPos>, optionRows: seq<OptionPos>)
      returns (stockOut: seq<StockPos>, optionOut: seq<OptionPos>)
      requires optionType == "" ==> QueryResult(stockRows, stocks, StockWhere(ToUpper(search)), OpenDateKey)
      requires QueryResult(optionRows, options, OptionWhere(ToUpper(search), optionType), PurchaseDateKey)
      ensures optionType != "" ==> stockOut == []
      ensures optionType == "" ==>
                Listing(stockOut, stocks, StockWhere(ToUpper(search)), StockInRange(dateFrom, dateTo), OpenDateKey)
      ensures Listing(optionOut, options, OptionWhere(ToUpper(search), optionType), OptionInRange(dateFrom, dateTo),
                      PurchaseDateKey)
    {
      stockOut := [];
      if optionType == "" {
        stockOut := StockPositions(search, dateFrom, dateTo, stockRows);
      }
      optionOut := OptionPositions(search, optionType, dateFrom, dateTo, optionRows);
    }

    /** `HandleGetClosedStocks`. */
    method ClosedStocksList(search: string, dateFrom: string, dateTo: string, rows: seq<ClosedStock>)
      returns (out: seq<ClosedStock>)
      requires QueryResult(rows, closedStocks, ClosedStockWhere(ToUpper(search)), StockCloseDateKey)
      ensures Listing(out, closedStocks, ClosedStockWhere(ToUpper(search)), ClosedStockInRange(dateFrom, dateTo),
                      StockCloseDateKey)
    {
      out := KeepRows(rows, ClosedStockInRange(dateFrom, dateTo));
      KeepFromQuery(rows, closedStocks, ClosedStockWhere(ToUpper(search)), ClosedStockInRange(dateFrom, dateTo),
                    StockCloseDateKey);
    }

    /** `HandleGetClosedOptions`. */
    method ClosedOptionsList(search: string, optionType: string, dateFrom: string, dateTo: string,
                             rows: seq<ClosedOption>) returns (out: seq<ClosedOption>)
      requires QueryResult(rows, closedOptions, ClosedOptionWhere(ToUpper(search), optionType), OptionCloseDateKey)
      ensures Listing(out, closedOptions, ClosedOptionWhere(ToUpper(search), optionType),
                      ClosedOptionInRange(dateFrom, dateTo), OptionCloseDateKey)
    {
      out := KeepRows(rows, ClosedOptionInRange(dateFrom, dateTo));
      KeepFromQuery(rows, closedOptions, ClosedOptionWhere(ToUpper(search), optionType),
                    ClosedOptionInRange(dateFrom, dateTo), OptionCloseDateKey);
    }

    /** `HandleHistoryFilter`: with a type filter no closed stock is listed. */
    method HistoryFilter(search: string, optionType: string, dateFrom: string, dateTo: string,
                         stockRows: seq<ClosedStock>, optionRows: seq<ClosedOption>)
      returns (stockOut: seq<ClosedStock>, optionOut: seq<ClosedOption>)
      requires optionType == "" ==>
                 QueryResult(stockRows, closedStocks, ClosedStockWhere(ToUpper(search)), StockCloseDateKey)
      requires QueryResult(optionRows, closedOptions, ClosedOptionWhere(ToUpper(search), optionType), OptionCloseDateKey)
      ensures optionType != "" ==> stockOut == []
      ensures optionType == "" ==>
                Listing(stockOut, closedStocks, ClosedStockWhere(ToUpper(search)),
                        ClosedStockInRange(dateFrom, dateTo), StockCloseDateKey)
      ensures Listing(optionOut, closedOptions, ClosedOptionWhere(ToUpper(search), optionType),
                      ClosedOptionInRange(dateFrom, dateTo), OptionCloseDateKey)
    {
      stockOut := [];
      if optionType == "" {
        stockOut := ClosedStocksList(search, dateFrom, dateTo, stockRows);
      }
      optionOut := ClosedOptionsList(search, optionType, dateFrom, dateTo, optionRows);
    }
  }
}
