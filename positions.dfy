/** The ledger changes made by handlers/positions.go, as functions from the
    ledger before a request to the ledger after it: adding shares or an
    option, closing a stock lot, closing an option with one of its four
    outcomes, editing and deleting open rows. Form values arrive parsed (see
    the Store module for the parsing); `time.Now()` defaults arrive as dates. */
module Positions {
  import opened Seqs
  import opened Text
  import opened Types
  import opened Totals
  import opened Tables

  // ----- adding shares -----

  /** The merge divides by the new lot size, which must not be 0. */
  predicate MergeDefined(s: seq<StockPos>, ticker: string, quantity: real)
  {
    LotOf(s, ticker).Some? ==> s[LotOf(s, ticker).value].quantity + quantity != 0.0
  }

  /** `quantity` shares of `ticker` bought at `price`: merged into the
      ticker's lot at the weighted-average cost, or opened as a new lot on
      `openDate`. The add form, an assigned put and an imported Buy all do
      this. */
  function AddShares(db: Db, ticker: string, quantity: real, price: real, openDate: string): (r: Db)
    requires MergeDefined(db.stocks, ticker, quantity)
    ensures r.options == db.options && r.closedStocks == db.closedStocks && r.closedOptions == db.closedOptions
    ensures r.nextOption == db.nextOption && r.nextClosedStock == db.nextClosedStock
    ensures r.nextClosedOption == db.nextClosedOption
  {
    match LotOf(db.stocks, ticker)
    case Some(k) =>
      var lot := db.stocks[k];
      db.(stocks := db.stocks[k := lot.(quantity := lot.quantity + quantity,
                                         costBasis := WeightedAverage(lot.quantity, lot.costBasis, quantity, price))])
    case None =>
      InsertStock(db, StockPos(0, openDate, ticker, quantity, price))
  }

  /** The ticker then has a lot holding the old shares plus the new ones, at a
      cost basis that conserves the money invested; a merged lot keeps its
      open date and id, a new one opens on `openDate`. */
  lemma AddSharesLot(db: Db, ticker: string, quantity: real, price: real, openDate: string)
    requires MergeDefined(db.stocks, ticker, quantity)
    ensures var r := AddShares(db, ticker, quantity, price, openDate);
            var k := LotOf(r.stocks, ticker);
            k.Some? &&
            match LotOf(db.stocks, ticker)
            case Some(j) =>
              k.value == j && |r.stocks| == |db.stocks| &&
              r.stocks[j].id == db.stocks[j].id && r.stocks[j].openDate == db.stocks[j].openDate &&
              r.stocks[j].quantity == db.stocks[j].quantity + quantity &&
              r.stocks[j].costBasis * r.stocks[j].quantity ==
                db.stocks[j].costBasis * db.stocks[j].quantity + price * quantity &&
              (forall i :: 0 <= i < |db.stocks| && i != j ==> r.stocks[i] == db.stocks[i])
            case None =>
              k.value == |db.stocks| &&
              r.stocks == db.stocks + [StockPos(db.nextStock, openDate, ticker, quantity, price)]
  {
    var r := AddShares(db, ticker, quantity, price, openDate);
    match LotOf(db.stocks, ticker)
    case Some(j) =>
      assert r.stocks[j].ticker == ticker;
      assert forall i :: 0 <= i < j ==> r.stocks[i].ticker != ticker;
    case None =>
      assert r.stocks[|db.stocks|].ticker == ticker;
      assert forall i :: 0 <= i < |db.stocks| ==> r.stocks[i].ticker != ticker;
  }

  /** Adding shares adds exactly `quantity` shares and `quantity * price` of
      invested money to the ticker. */
  lemma AddSharesTotals(db: Db, ticker: string, quantity: real, price: real, openDate: string)
    requires MergeDefined(db.stocks, ticker, quantity)
    ensures var r := AddShares(db, ticker, quantity, price, openDate);
            Sum(r.stocks, Held(ticker)) == Sum(db.stocks, Held(ticker)) + quantity &&
            Sum(r.stocks, Invested(ticker)) == Sum(db.stocks, Invested(ticker)) + Cost(quantity, price)
  {
    var s := db.stocks;
    match LotOf(s, ticker)
    case Some(k) =>
      var lot := s[k];
      var x := lot.(quantity := lot.quantity + quantity,
                    costBasis := WeightedAverage(lot.quantity, lot.costBasis, quantity, price));
      assert AddShares(db, ticker, quantity, price, openDate).stocks == s[k := x];
      assert Held(ticker)(x) == Held(ticker)(lot) + quantity;
      assert Invested(ticker)(x) == Invested(ticker)(lot) + Cost(quantity, price);
      SumUpdate(s, k, x, Held(ticker));
      SumUpdate(s, k, x, Invested(ticker));
    case None =>
      var x := StockPos(db.nextStock, openDate, ticker, quantity, price);
      assert AddShares(db, ticker, quantity, price, openDate).stocks == s + [x];
      SumAppend(s, x, Held(ticker));
      SumAppend(s, x, Invested(ticker));
  }

  /** Buying a positive quantity never needs a zero divisor and keeps the
      ledger invariant: still one lot per ticker, all quantities positive. */
  lemma AddSharesKeeps(db: Db, ticker: string, quantity: real, price: real, openDate: string)
    requires LedgerOk(db) && quantity > 0.0
    ensures MergeDefined(db.stocks, ticker, quantity)
    ensures LedgerOk(AddShares(db, ticker, quantity, price, openDate))
  {
    var s := db.stocks;
    match LotOf(s, ticker)
    case Some(k) =>
      var lot := s[k];
      KeyedUpdate(s, StockKey, db.nextStock, k, lot.(quantity := lot.quantity + quantity,
                  costBasis := WeightedAverage(lot.quantity, lot.costBasis, quantity, price)));
    case None =>
      KeyedAppend(s, StockKey, db.nextStock, StockPos(db.nextStock, openDate, ticker, quantity, price));
  }

  // ----- opening an option -----

  /** Collateral recorded when an option is opened by hand: a cash-secured put
      reserves 100 times the strike (for the whole row, however many
      contracts), a covered call reserves the cost of 100 shares when the
      ticker's lot holds at least 100, anything else reserves nothing. */
  function OpeningCollateral(stocks: seq<StockPos>, ticker: string, optionType: string, strike: real): real
  {
    if optionType == CSP then strike * 100.0
    else if optionType == CC then
      match LotOf(stocks, ticker)
      case Some(k) => if stocks[k].quantity >= 100.0 then stocks[k].costBasis * 100.0 else 0.0
      case None => 0.0
    else 0.0
  }

  /** A covered call on a ticker without 100 held shares holds no collateral,
      whoever else holds shares. */
  lemma CoveredCallNeedsShares(stocks: seq<StockPos>, ticker: string, strike: real)
    requires OneLotPerTicker(stocks)
    requires Sum(stocks, Held(ticker)) < 100.0
    requires forall i :: 0 <= i < |stocks| ==> stocks[i].quantity >= 0.0
    ensures OpeningCollateral(stocks, ticker, CC, strike) == 0.0
  {
    match LotOf(stocks, ticker)
    case None =>
    case Some(k) =>
      HeldAtLeastLot(stocks, ticker, k);
  }

  /** A covered call on a ticker holding at least 100 shares reserves the cost
      of 100 shares at the basis of the ticker's one lot. */
  lemma CoveredCallReservesLotCost(stocks: seq<StockPos>, ticker: string, strike: real)
    requires OneLotPerTicker(stocks)
    requires Sum(stocks, Held(ticker)) >= 100.0
    ensures LotOf(stocks, ticker).Some?
    ensures Sum(stocks, Held(ticker)) == stocks[LotOf(stocks, ticker).value].quantity
    ensures OpeningCollateral(stocks, ticker, CC, strike) == stocks[LotOf(stocks, ticker).value].costBasis * 100.0
  {
    match LotOf(stocks, ticker)
    case None =>
      HeldWithoutLot(stocks, ticker);
    case Some(k) =>
      HeldIsLot(stocks, ticker, k);
  }

  /** A ticker without a lot holds no shares. */
  lemma {:induction false} HeldWithoutLot(stocks: seq<StockPos>, ticker: string)
    requires forall j :: 0 <= j < |stocks| ==> stocks[j].ticker != ticker
    ensures Sum(stocks, Held(ticker)) == 0.0
  {
    if stocks != [] {
      HeldWithoutLot(stocks[..|stocks| - 1], ticker);
    }
  }

  /** With one lot per ticker, the ticker's holdings are that lot's quantity. */
  lemma {:induction false} HeldIsLot(stocks: seq<StockPos>, ticker: string, k: nat)
    requires OneLotPerTicker(stocks)
    requires k < |stocks| && stocks[k].ticker == ticker
    ensures Sum(stocks, Held(ticker)) == stocks[k].quantity
  {
    var front := stocks[..|stocks| - 1];
    if k == |stocks| - 1 {
      assert forall j :: 0 <= j < |front| ==> front[j].ticker != ticker by {
        forall j | 0 <= j < |front| ensures front[j].ticker != ticker {
          assert stocks[j].ticker != stocks[k].ticker;
        }
      }
      HeldWithoutLot(front, ticker);
    } else {
      assert stocks[k].ticker != stocks[|stocks| - 1].ticker;
      assert OneLotPerTicker(front) by {
        forall i, j | 0 <= i < j < |front| ensures front[i].ticker != front[j].ticker {
          assert stocks[i].ticker != stocks[j].ticker;
        }
      }
      HeldIsLot(front, ticker, k);
    }
  }

  /** With no negative lots, the ticker's total is at least any one of its lots. */
  lemma {:induction false} HeldAtLeastLot(stocks: seq<StockPos>, ticker: string, k: nat)
    requires k < |stocks| && stocks[k].ticker == ticker
    requires forall i :: 0 <= i < |stocks| ==> stocks[i].quantity >= 0.0
    ensures Sum(stocks, Held(ticker)) >= stocks[k].quantity
  {
    var front := stocks[..|stocks| - 1];
    if k == |stocks| - 1 {
      SumNonNegative(front, Held(ticker));
    } else {
      HeldAtLeastLot(front, ticker, k);
      assert Held(ticker)(stocks[|stocks| - 1]) >= 0.0;
    }
  }

  /** The add form's option branch: a new row whose price is the premium. */
  function OpenOption(db: Db, ticker: string, optionType: string, strike: real, premium: real,
                      quantity: real, expDate: string, purchaseDate: string): (r: Db)
    ensures r.stocks == db.stocks && r.closedStocks == db.closedStocks && r.closedOptions == db.closedOptions
    ensures |r.options| == |db.options| + 1 && r.options[..|db.options|] == db.options
    ensures var p := r.options[|db.options|];
            p.id == db.nextOption && p.ticker == ticker && p.price == premium && p.premium == premium &&
            p.strike == strike && p.optionType == optionType && p.quantity == quantity &&
            p.collateral == OpeningCollateral(db.stocks, ticker, optionType, strike) &&
            p.expDate == expDate && p.purchaseDate == purchaseDate
  {
    InsertOption(db, OptionPos(0, ticker, premium, premium, strike, expDate, optionType,
                               OpeningCollateral(db.stocks, ticker, optionType, strike), quantity, purchaseDate))
  }

  lemma OpenOptionKeeps(db: Db, ticker: string, optionType: string, strike: real, premium: real,
                        quantity: real, expDate: string, purchaseDate: string)
    requires LedgerOk(db) && quantity > 0.0
    ensures LedgerOk(OpenOption(db, ticker, optionType, strike, premium, quantity, expDate, purchaseDate))
  {
    var r := OpenOption(db, ticker, optionType, strike, premium, quantity, expDate, purchaseDate);
    KeyedAppend(db.options, OptionKey, db.nextOption, r.options[|db.options|]);
    assert r.options == db.options + [r.options[|db.options|]];
  }

  // ----- closing a stock lot -----

  /** Why a close request is refused: no such row, or (options only) a
      quantity outside (0, held]. */
  datatype CloseError = NotFound | InvalidQuantity

  /** The close form's quantity: none, 0 or less, or more than the lot holds
      all mean the whole lot. */
  function CloseQuantity(requested: Option<real>, current: real): (r: real)
    ensures requested.Some? && 0.0 < requested.value <= current ==> r == requested.value
    ensures !(requested.Some? && 0.0 < requested.value <= current) ==> r == current
  {
    var q0 := match requested case None => current case Some(v) => v;
    var q1 := if q0 <= 0.0 then current else q0;
    if q1 > current then current else q1
  }

  /** Whatever was asked, a positive lot closes a positive part of itself. */
  lemma CloseQuantityBounds(requested: Option<real>, current: real)
    requires current > 0.0
    ensures 0.0 < CloseQuantity(requested, current) <= current
  {
  }

  /** The closed_stocks row a close blends into: same ticker and open date. */
  function SaleOf(cs: seq<ClosedStock>, ticker: string, openDate: string): (r: Option<nat>)
    ensures r.Some? ==> r.value < |cs| && cs[r.value].ticker == ticker && cs[r.value].openDate == openDate
    ensures r.None? ==> forall j :: 0 <= j < |cs| ==> cs[j].ticker != ticker || cs[j].openDate != openDate
  {
    FindFirst(cs, (c: ClosedStock) => c.ticker == ticker && c.openDate == openDate)
  }

  /** Blending divides by the blended quantity, which must not be 0. */
  predicate BlendDefined(cs: seq<ClosedStock>, ticker: string, openDate: string, q: real)
  {
    SaleOf(cs, ticker, openDate).Some? ==> cs[SaleOf(cs, ticker, openDate).value].quantity + q != 0.0
  }

  /** The closed_stocks row for selling `q` shares at `sellPrice` out of a lot
      bought at `costBasis`; quantities add into an existing row for the same
      ticker and open date, with weighted cost and sell prices, summed P/L and
      the new close date. */
  function RecordSale(db: Db, ticker: string, openDate: string, closeDate: string,
                      q: real, costBasis: real, sellPrice: real): (r: Db)
    requires BlendDefined(db.closedStocks, ticker, openDate, q)
    ensures r.stocks == db.stocks && r.options == db.options && r.closedOptions == db.closedOptions
    ensures r.nextStock == db.nextStock && r.nextOption == db.nextOption
    ensures r.nextClosedOption == db.nextClosedOption
  {
    var pl := SalePL(costBasis, sellPrice, q);
    match SaleOf(db.closedStocks, ticker, openDate)
    case Some(k) =>
      var c := db.closedStocks[k];
      db.(closedStocks := db.closedStocks[k := c.(quantity := c.quantity + q,
          costBasis := WeightedAverage(c.quantity, c.costBasis, q, costBasis),
          sellPrice := WeightedAverage(c.quantity, c.sellPrice, q, sellPrice),
          profitLoss := c.profitLoss + pl, closeDate := closeDate)])
    case None =>
      InsertClosedStock(db, ClosedStock(0, ticker, openDate, closeDate, q, costBasis, sellPrice, pl))
  }

  /** A blended row still realises its own P/L: the sum of two consistent
      P/Ls is the P/L of the weighted prices over the summed quantity. */
  lemma BlendConsistent(c: ClosedStock, q: real, costBasis: real, sellPrice: real, closeDate: string)
    requires ClosedStockConsistent(c) && c.quantity + q != 0.0
    ensures ClosedStockConsistent(c.(quantity := c.quantity + q,
      costBasis := WeightedAverage(c.quantity, c.costBasis, q, costBasis),
      sellPrice := WeightedAverage(c.quantity, c.sellPrice, q, sellPrice),
      profitLoss := c.profitLoss + SalePL(costBasis, sellPrice, q), closeDate := closeDate))
  {
    var w := c.quantity + q;
    var b := WeightedAverage(c.quantity, c.costBasis, q, costBasis);
    var s := WeightedAverage(c.quantity, c.sellPrice, q, sellPrice);
    assert b * w == c.costBasis * c.quantity + costBasis * q;
    assert s * w == c.sellPrice * c.quantity + sellPrice * q;
    assert (s - b) * w == s * w - b * w;
  }

  /** Recording a sale adds `q` sold shares and `(sellPrice - costBasis) * q`
      of P/L, and keeps every closed row consistent. */
  lemma RecordSaleTotals(db: Db, ticker: string, openDate: string, closeDate: string,
                         q: real, costBasis: real, sellPrice: real)
    requires BlendDefined(db.closedStocks, ticker, openDate, q)
    ensures var r := RecordSale(db, ticker, openDate, closeDate, q, costBasis, sellPrice);
            Sum(r.closedStocks, Sold(ticker)) == Sum(db.closedStocks, Sold(ticker)) + q &&
            Sum(r.closedStocks, StockPL) == Sum(db.closedStocks, StockPL) + SalePL(costBasis, sellPrice, q)
  {
    var cs := db.closedStocks;
    var pl := SalePL(costBasis, sellPrice, q);
    match SaleOf(cs, ticker, openDate)
    case Some(k) =>
      var c := cs[k];
      var x := c.(quantity := c.quantity + q,
          costBasis := WeightedAverage(c.quantity, c.costBasis, q, costBasis),
          sellPrice := WeightedAverage(c.quantity, c.sellPrice, q, sellPrice),
          profitLoss := c.profitLoss + pl, closeDate := closeDate);
      assert RecordSale(db, ticker, openDate, closeDate, q, costBasis, sellPrice).closedStocks == cs[k := x];
      assert Sold(ticker)(x) == Sold(ticker)(c) + q;
      SumUpdate(cs, k, x, Sold(ticker));
      SumUpdate(cs, k, x, StockPL);
    case None =>
      var x := ClosedStock(db.nextClosedStock, ticker, openDate, closeDate, q, costBasis, sellPrice, pl);
      assert RecordSale(db, ticker, openDate, closeDate, q, costBasis, sellPrice).closedStocks == cs + [x];
      SumAppend(cs, x, Sold(ticker));
      SumAppend(cs, x, StockPL);
  }

  lemma RecordSaleKeeps(db: Db, ticker: string, openDate: string, closeDate: string,
                        q: real, costBasis: real, sellPrice: real)
    requires BlendDefined(db.closedStocks, ticker, openDate, q)
    requires KeysOk(db) && SalesConsistent(db.closedStocks)
    ensures var r := RecordSale(db, ticker, openDate, closeDate, q, costBasis, sellPrice);
            KeysOk(r) && SalesConsistent(r.closedStocks)
  {
    var cs := db.closedStocks;
    var pl := SalePL(costBasis, sellPrice, q);
    match SaleOf(cs, ticker, openDate)
    case Some(k) =>
      var c := cs[k];
      var x := c.(quantity := c.quantity + q,
          costBasis := WeightedAverage(c.quantity, c.costBasis, q, costBasis),
          sellPrice := WeightedAverage(c.quantity, c.sellPrice, q, sellPrice),
          profitLoss := c.profitLoss + pl, closeDate := closeDate);
      BlendConsistent(c, q, costBasis, sellPrice, closeDate);
      KeyedUpdate(cs, ClosedStockKey, db.nextClosedStock, k, x);
    case None =>
      var x := ClosedStock(db.nextClosedStock, ticker, openDate, closeDate, q, costBasis, sellPrice, pl);
      KeyedAppend(cs, ClosedStockKey, db.nextClosedStock, x);
  }

  /** The blend's divisor for closing lot `id`. */
  predicate CloseStockDefined(db: Db, id: int, requested: Option<real>)
  {
    var k := ByKey(db.stocks, StockKey, id);
    k.Some? ==>
      var lot := db.stocks[k.value];
      BlendDefined(db.closedStocks, lot.ticker, lot.openDate, CloseQuantity(requested, lot.quantity))
  }

  /** The ledger invariant leaves the closed rows' quantities free, so the
      blend's divisor is non-zero only when no closed row holds a negative
      quantity: then every stock close is defined. */
  lemma SoldQuantitiesCloseStockDefined(db: Db, id: int, requested: Option<real>)
    requires LedgerOk(db)
    requires forall i :: 0 <= i < |db.closedStocks| ==> db.closedStocks[i].quantity >= 0.0
    ensures CloseStockDefined(db, id, requested)
  {
    match ByKey(db.stocks, StockKey, id)
    case None =>
    case Some(k) =>
      CloseQuantityBounds(requested, db.stocks[k].quantity);
  }

  /** A closed row edited to a negative quantity can cancel the next sale of
      its lot: the ledger keeps its invariant, yet the blend would divide by 0. */
  lemma NegativeSaleBlocksClose()
    ensures var db := Db([StockPos(1, "d", "T", 5.0, 1.0)], [],
                         [ClosedStock(1, "T", "d", "d", -5.0, 1.0, 1.0, SalePL(1.0, 1.0, -5.0))], [],
                         2, 1, 2, 1);
            LedgerOk(db) && !CloseStockDefined(db, 1, None)
  {
  }

  /** `HandleCloseStockPosition`: sell part or all of lot `id` at `sellPrice`.
      The sale is recorded (blended by ticker and open date), then the lot
      keeps what remains or is deleted. An unknown id changes nothing. */
  function CloseStock(db: Db, id: int, requested: Option<real>, sellPrice: real, closeDate: string): (r: Result<Db, CloseError>)
    requires CloseStockDefined(db, id, requested)
    ensures r.Err? <==> ByKey(db.stocks, StockKey, id).None?
    ensures r.Err? ==> r.error == NotFound
    ensures r.Ok? ==> r.value.options == db.options && r.value.closedOptions == db.closedOptions
  {
    match ByKey(db.stocks, StockKey, id)
    case None => Err(NotFound)
    case Some(k) =>
      var lot := db.stocks[k];
      var q := CloseQuantity(requested, lot.quantity);
      var d := RecordSale(db, lot.ticker, lot.openDate, closeDate, q, lot.costBasis, sellPrice);
      Ok(d.(stocks := ShrinkLot(d.stocks, k, q)))
  }

  /** A stock close moves shares from the lot to the sales record without
      losing any: held plus sold shares of the ticker are unchanged, and the
      realised P/L grows by `(sellPrice - costBasis) * closed`. */
  lemma CloseStockConserves(db: Db, id: int, requested: Option<real>, sellPrice: real, closeDate: string)
    requires CloseStockDefined(db, id, requested) && ByKey(db.stocks, StockKey, id).Some?
    ensures var lot := db.stocks[ByKey(db.stocks, StockKey, id).value];
            var q := CloseQuantity(requested, lot.quantity);
            var r := CloseStock(db, id, requested, sellPrice, closeDate).value;
            Sum(r.stocks, Held(lot.ticker)) + Sum(r.closedStocks, Sold(lot.ticker)) ==
              Sum(db.stocks, Held(lot.ticker)) + Sum(db.closedStocks, Sold(lot.ticker)) &&
            Sum(r.closedStocks, StockPL) == Sum(db.closedStocks, StockPL) + SalePL(lot.costBasis, sellPrice, q)
  {
    var k := ByKey(db.stocks, StockKey, id).value;
    var lot := db.stocks[k];
    var q := CloseQuantity(requested, lot.quantity);
    var r := CloseStock(db, id, requested, sellPrice, closeDate).value;
    var d := RecordSale(db, lot.ticker, lot.openDate, closeDate, q, lot.costBasis, sellPrice);
    CloseStockShape(db, id, requested, sellPrice, closeDate);
    RecordSaleTotals(db, lot.ticker, lot.openDate, closeDate, q, lot.costBasis, sellPrice);
    ShrinkLotHeld(db.stocks, k, q);
    assert Sum(r.closedStocks, StockPL) == Sum(d.closedStocks, StockPL);
  }

  /** A successful stock close is the sale record followed by the lot shrink. */
  lemma CloseStockShape(db: Db, id: int, requested: Option<real>, sellPrice: real, closeDate: string)
    requires CloseStockDefined(db, id, requested) && ByKey(db.stocks, StockKey, id).Some?
    ensures var k := ByKey(db.stocks, StockKey, id).value;
            var lot := db.stocks[k];
            var q := CloseQuantity(requested, lot.quantity);
            var r := CloseStock(db, id, requested, sellPrice, closeDate).value;
            r.stocks == ShrinkLot(db.stocks, k, q) &&
            r.closedStocks == RecordSale(db, lot.ticker, lot.openDate, closeDate, q, lot.costBasis, sellPrice).closedStocks
  {
  }

  lemma CloseStockKeeps(db: Db, id: int, requested: Option<real>, sellPrice: real, closeDate: string)
    requires CloseStockDefined(db, id, requested) && LedgerOk(db)
    ensures CloseStock(db, id, requested, sellPrice, closeDate).Ok? ==>
              LedgerOk(CloseStock(db, id, requested, sellPrice, closeDate).value)
  {
    match ByKey(db.stocks, StockKey, id)
    case None =>
    case Some(k) =>
      var lot := db.stocks[k];
      var q := CloseQuantity(requested, lot.quantity);
      RecordSaleKeeps(db, lot.ticker, lot.openDate, closeDate, q, lot.costBasis, sellPrice);
      ShrinkLotKeeps(db.stocks, k, q, db.nextStock);
  }

  // ----- closing an option -----

  const Expired := "expired"
  const CalledAway := "called_away"
  const Assigned := "assigned"

  /** The realised P/L of closing `q` contracts: a long option gains what the
      sale fetches over the premium paid, a short one what it keeps of the
      premium received; any other type string records 0. */
  function OptionClosePL(optionType: string, premium: real, sellPrice: real, q: real): real
  {
    if optionType == Call || optionType == Put then (sellPrice - premium) * q
    else if optionType == CSP || optionType == CC then (premium - sellPrice) * q
    else 0.0
  }

  /** Closing a positive number of contracts gains exactly when a long option
      sells above its premium, or a short one is bought back below it. */
  lemma OptionClosePLSign(optionType: string, premium: real, sellPrice: real, q: real)
    requires q > 0.0
    ensures IsLongType(optionType) ==> (OptionClosePL(optionType, premium, sellPrice, q) > 0.0 <==> sellPrice > premium)
    ensures IsShortType(optionType) ==> (OptionClosePL(optionType, premium, sellPrice, q) > 0.0 <==> sellPrice < premium)
  {
    if IsLongType(optionType) {
      assert OptionClosePL(optionType, premium, sellPrice, q) == (sellPrice - premium) * q;
      ProductSign(sellPrice - premium, q);
    }
    if IsShortType(optionType) {
      assert OptionClosePL(optionType, premium, sellPrice, q) == (premium - sellPrice) * q;
      ProductSign(premium - sellPrice, q);
    }
  }

  /** A difference scaled by a positive count keeps its sign. */
  lemma ProductSign(d: real, q: real)
    requires q > 0.0
    ensures d * q > 0.0 <==> d > 0.0
  {
    if d > 0.0 {
      assert d * q > 0.0;
    } else {
      assert d * q <= 0.0;
    }
  }


  /** `called_away`: `shares` of the ticker's lot sold at `sharePrice` as a
      new closed row (never blended), the lot shrunk or deleted; nothing
      happens unless the lot holds that many shares. */
  function CallAway(db: Db, ticker: string, shares: real, sharePrice: real, closeDate: string): (r: Db)
    ensures r.options == db.options && r.closedOptions == db.closedOptions
    ensures r.nextOption == db.nextOption && r.nextClosedOption == db.nextClosedOption
  {
    match LotOf(db.stocks, ticker)
    case Some(k) =>
      var lot := db.stocks[k];
      if lot.quantity >= shares then
        var d := InsertClosedStock(db, ClosedStock(0, ticker, lot.openDate, closeDate, shares, lot.costBasis,
                                                   sharePrice, SalePL(lot.costBasis, sharePrice, shares)));
        d.(stocks := ShrinkLot(d.stocks, k, shares))
      else db
    case None => db
  }

  /** Shares called away leave the lot and appear as sold, exactly `shares`
      of them, with P/L `(sharePrice - costBasis) * shares`; without enough
      shares the stock tables are untouched. */
  lemma CallAwayTotals(db: Db, ticker: string, shares: real, sharePrice: real, closeDate: string)
    requires shares > 0.0
    ensures var r := CallAway(db, ticker, shares, sharePrice, closeDate);
            var k := LotOf(db.stocks, ticker);
            if k.Some? && db.stocks[k.value].quantity >= shares then
              Sum(r.stocks, Held(ticker)) == Sum(db.stocks, Held(ticker)) - shares &&
              Sum(r.closedStocks, Sold(ticker)) == Sum(db.closedStocks, Sold(ticker)) + shares &&
              Sum(r.closedStocks, StockPL) ==
                Sum(db.closedStocks, StockPL) + SalePL(db.stocks[k.value].costBasis, sharePrice, shares)
            else r == db
  {
    match LotOf(db.stocks, ticker)
    case None =>
    case Some(k) =>
      var lot := db.stocks[k];
      if lot.quantity >= shares {
        var c := ClosedStock(db.nextClosedStock, ticker, lot.openDate, closeDate, shares, lot.costBasis,
                             sharePrice, SalePL(lot.costBasis, sharePrice, shares));
        ShrinkLotHeld(db.stocks, k, shares);
        SumAppend(db.closedStocks, c, Sold(ticker));
        SumAppend(db.closedStocks, c, StockPL);
      }
  }

  lemma CallAwayKeeps(db: Db, ticker: string, shares: real, sharePrice: real, closeDate: string)
    requires LedgerOk(db)
    ensures LedgerOk(CallAway(db, ticker, shares, sharePrice, closeDate))
  {
    match LotOf(db.stocks, ticker)
    case None =>
    case Some(k) =>
      var lot := db.stocks[k];
      if lot.quantity >= shares {
        var c := ClosedStock(db.nextClosedStock, ticker, lot.openDate, closeDate, shares, lot.costBasis,
                             sharePrice, SalePL(lot.costBasis, sharePrice, shares));
        var r := CallAway(db, ticker, shares, sharePrice, closeDate);
        assert |r.closedStocks| == |db.closedStocks| + 1;
        assert r.closedStocks[|db.closedStocks|] == c;
        assert r.closedStocks == db.closedStocks + [c];
        assert r.stocks == ShrinkLot(db.stocks, k, shares);
        KeyedAppend(db.closedStocks, ClosedStockKey, db.nextClosedStock, c);
        SalesConsistentAppend(db.closedStocks, c);
        ShrinkLotKeeps(db.stocks, k, shares, db.nextStock);
      }
  }

  lemma SalesConsistentAppend(cs: seq<ClosedStock>, c: ClosedStock)
    requires SalesConsistent(cs) && ClosedStockConsistent(c)
    ensures SalesConsistent(cs + [c])
  {
  }

  /** The stock side of an option close. */
  function OutcomeShares(db: Db, outcome: string, pos: OptionPos, q: real, sharePrice: real, closeDate: string): (r: Db)
    requires outcome == Assigned ==> MergeDefined(db.stocks, pos.ticker, q * 100.0)
    ensures r.options == db.options && r.closedOptions == db.closedOptions
    ensures r.nextOption == db.nextOption && r.nextClosedOption == db.nextClosedOption
    ensures outcome != CalledAway && outcome != Assigned ==> r == db
  {
    if outcome == CalledAway then CallAway(db, pos.ticker, q * 100.0, sharePrice, closeDate)
    else if outcome == Assigned then AddShares(db, pos.ticker, q * 100.0, pos.strike, closeDate)
    else db
  }

  /** The merge divisor of an assignment on option `id`. */
  predicate CloseOptionDefined(db: Db, id: int, outcome: string, q: real)
  {
    var k := ByKey(db.options, OptionKey, id);
    k.Some? && 0.0 < q <= db.options[k.value].quantity && outcome == Assigned ==>
      MergeDefined(db.stocks, db.options[k.value].ticker, q * 100.0)
  }

  /** On a ledger that keeps its invariant every option close is defined:
      an assignment merges into a positive lot, so the new size is not 0. */
  lemma LedgerOkCloseOptionDefined(db: Db, id: int, outcome: string, q: real)
    requires LedgerOk(db)
    ensures CloseOptionDefined(db, id, outcome, q)
  {
    var k := ByKey(db.options, OptionKey, id);
    if k.Some? && 0.0 < q <= db.options[k.value].quantity && outcome == Assigned {
      var t := db.options[k.value].ticker;
      match LotOf(db.stocks, t)
      case None =>
      case Some(j) =>
        assert db.stocks[j].quantity > 0.0;
    }
  }

  /** Sell price recorded for an outcome: expired, assigned and called-away
      options are closed for nothing. */
  function OutcomeSellPrice(outcome: string, sellPrice: real): real
  {
    if outcome == Expired || outcome == CalledAway || outcome == Assigned then 0.0 else sellPrice
  }

  /** The close date recorded: an expired option closes on its expiry date. */
  function OutcomeCloseDate(outcome: string, expDate: string, closeDate: string): string
  {
    if outcome == Expired then expDate else closeDate
  }

  /** `HandleCloseOptionPosition`: close `q` contracts of option `id`. An
      unknown id, or a quantity not in (0, held], is rejected with no change.
      Otherwise the outcome's stock effect happens, a closed row records the
      contracts with their share of the collateral, and the position keeps
      the remaining contracts and collateral or is deleted. */
  function CloseOption(db: Db, id: int, outcome: string, q: real, sellPrice: real,
                       sharePrice: real, closeDate: string): (r: Result<Db, CloseError>)
    requires CloseOptionDefined(db, id, outcome, q)
    ensures (r.Err? && r.error == NotFound) <==> ByKey(db.options, OptionKey, id).None?
    ensures (r.Err? && r.error == InvalidQuantity) <==>
      ByKey(db.options, OptionKey, id).Some? &&
      (q <= 0.0 || q > db.options[ByKey(db.options, OptionKey, id).value].quantity)
  {
    match ByKey(db.options, OptionKey, id)
    case None => Err(NotFound)
    case Some(k) =>
      var pos := db.options[k];
      if q <= 0.0 || q > pos.quantity then Err(InvalidQuantity)
      else
        var sell := OutcomeSellPrice(outcome, sellPrice);
        var date := OutcomeCloseDate(outcome, pos.expDate, closeDate);
        var d := OutcomeShares(db, outcome, pos, q, sharePrice, date);
        var share := CollateralShare(pos.collateral, pos.quantity, q);
        var d' := InsertClosedOption(d, ClosedOption(0, pos.ticker, pos.price, pos.premium, pos.strike,
                    pos.expDate, pos.optionType, share, q, pos.purchaseDate, date, sell,
                    OptionClosePL(pos.optionType, pos.premium, sell, q)));
        Ok(d'.(options := ShrinkOption(d'.options, k, q, share)))
  }

  /** The closed row a successful option close appends. */
  function ClosedOptionRow(db: Db, pos: OptionPos, outcome: string, q: real, sellPrice: real, closeDate: string): (c: ClosedOption)
    requires pos.quantity != 0.0
    ensures c.quantity == q && c.ticker == pos.ticker && c.optionType == pos.optionType
    ensures c.collateral * pos.quantity == pos.collateral * q
    ensures c.sellPrice == (if outcome in {Expired, CalledAway, Assigned} then 0.0 else sellPrice)
    ensures c.closeDate == (if outcome == Expired then pos.expDate else closeDate)
    ensures outcome in {Expired, CalledAway, Assigned} && IsShortType(pos.optionType) ==>
              c.profitLoss == pos.premium * q
    ensures outcome in {Expired, CalledAway, Assigned} && IsLongType(pos.optionType) ==>
              c.profitLoss == -pos.premium * q
    ensures !IsLongType(pos.optionType) && !IsShortType(pos.optionType) ==> c.profitLoss == 0.0
  {
    var sell := OutcomeSellPrice(outcome, sellPrice);
    ClosedOption(db.nextClosedOption, pos.ticker, pos.price, pos.premium, pos.strike, pos.expDate,
                 pos.optionType, CollateralShare(pos.collateral, pos.quantity, q), q, pos.purchaseDate,
                 OutcomeCloseDate(outcome, pos.expDate, closeDate), sell,
                 OptionClosePL(pos.optionType, pos.premium, sell, q))
  }

  /** What a successful option close does to the option tables: the closed
      row above is appended, and contracts and collateral of the ticker move
      from open to closed without any being created or lost. */
  lemma CloseOptionConserves(db: Db, id: int, outcome: string, q: real, sellPrice: real,
                             sharePrice: real, closeDate: string)
    requires CloseOptionDefined(db, id, outcome, q)
    requires CloseOption(db, id, outcome, q, sellPrice, sharePrice, closeDate).Ok?
    ensures var pos := db.options[ByKey(db.options, OptionKey, id).value];
            var r := CloseOption(db, id, outcome, q, sellPrice, sharePrice, closeDate).value;
            var t := pos.ticker;
            r.closedOptions == db.closedOptions + [ClosedOptionRow(db, pos, outcome, q, sellPrice, closeDate)] &&
            Sum(r.options, OpenContracts(t)) + Sum(r.closedOptions, ClosedContracts(t)) ==
              Sum(db.options, OpenContracts(t)) + Sum(db.closedOptions, ClosedContracts(t)) &&
            Sum(r.options, HeldCollateral(t)) + Sum(r.closedOptions, ReleasedCollateral(t)) ==
              Sum(db.options, HeldCollateral(t)) + Sum(db.closedOptions, ReleasedCollateral(t))
  {
    var k := ByKey(db.options, OptionKey, id).value;
    var pos := db.options[k];
    var c := ClosedOptionRow(db, pos, outcome, q, sellPrice, closeDate);
    var share := CollateralShare(pos.collateral, pos.quantity, q);
    var t := pos.ticker;
    assert c.collateral == share;
    ShrinkOptionContracts(db.options, k, q, share);
    ShrinkOptionCollateral(db.options, k, q, share);
    SumAppend(db.closedOptions, c, ClosedContracts(t));
    SumAppend(db.closedOptions, c, ReleasedCollateral(t));
  }

  /** The realised option P/L grows by the closed row's P/L, and the stock
      tables change only by the outcome's stock effect. */
  lemma CloseOptionEffects(db: Db, id: int, outcome: string, q: real, sellPrice: real,
                           sharePrice: real, closeDate: string)
    requires CloseOptionDefined(db, id, outcome, q)
    requires CloseOption(db, id, outcome, q, sellPrice, sharePrice, closeDate).Ok?
    ensures var pos := db.options[ByKey(db.options, OptionKey, id).value];
            var r := CloseOption(db, id, outcome, q, sellPrice, sharePrice, closeDate).value;
            var d := OutcomeShares(db, outcome, pos, q, sharePrice, OutcomeCloseDate(outcome, pos.expDate, closeDate));
            Sum(r.closedOptions, OptionPL) == Sum(db.closedOptions, OptionPL) +
              OptionClosePL(pos.optionType, pos.premium, OutcomeSellPrice(outcome, sellPrice), q) &&
            r.stocks == d.stocks && r.closedStocks == d.closedStocks
  {
    var k := ByKey(db.options, OptionKey, id).value;
    var pos := db.options[k];
    SumAppend(db.closedOptions, ClosedOptionRow(db, pos, outcome, q, sellPrice, closeDate), OptionPL);
  }

  /** An assignment adds 100 shares per contract to the ticker at the strike. */
  lemma AssignedAddsShares(db: Db, pos: OptionPos, q: real, sharePrice: real, closeDate: string)
    requires MergeDefined(db.stocks, pos.ticker, q * 100.0)
    ensures var d := OutcomeShares(db, Assigned, pos, q, sharePrice, closeDate);
            Sum(d.stocks, Held(pos.ticker)) == Sum(db.stocks, Held(pos.ticker)) + q * 100.0 &&
            Sum(d.stocks, Invested(pos.ticker)) == Sum(db.stocks, Invested(pos.ticker)) + Cost(q * 100.0, pos.strike) &&
            d.closedStocks == db.closedStocks
  {
    AddSharesTotals(db, pos.ticker, q * 100.0, pos.strike, closeDate);
  }

  /** A successful option close is the outcome's stock effect, then the
      closed row, then the position shrink. */
  lemma CloseOptionShape(db: Db, id: int, outcome: string, q: real, sellPrice: real,
                         sharePrice: real, closeDate: string, k: nat)
    requires CloseOptionDefined(db, id, outcome, q) && ByKey(db.options, OptionKey, id) == Some(k)
    requires 0.0 < q <= db.options[k].quantity
    ensures var pos := db.options[k];
            var d := OutcomeShares(db, outcome, pos, q, sharePrice, OutcomeCloseDate(outcome, pos.expDate, closeDate));
            var r := CloseOption(db, id, outcome, q, sellPrice, sharePrice, closeDate);
            r.Ok? &&
            r.value.stocks == d.stocks && r.value.closedStocks == d.closedStocks &&
            r.value.nextStock == d.nextStock && r.value.nextClosedStock == d.nextClosedStock &&
            r.value.closedOptions == db.closedOptions + [ClosedOptionRow(db, pos, outcome, q, sellPrice, closeDate)] &&
            r.value.nextClosedOption == db.nextClosedOption + 1 &&
            r.value.options == ShrinkOption(db.options, k, q, CollateralShare(pos.collateral, pos.quantity, q)) &&
            r.value.nextOption == db.nextOption
  {
    var pos := db.options[k];
    var r := CloseOption(db, id, outcome, q, sellPrice, sharePrice, closeDate);
    var c := ClosedOptionRow(db, pos, outcome, q, sellPrice, closeDate);
    var n := |db.closedOptions|;
    assert |r.value.closedOptions| == n + 1;
    assert r.value.closedOptions[n] == c;
    assert r.value.closedOptions == db.closedOptions + [c];
  }

  /** A successful option close keeps the ledger invariants. */
  lemma CloseOptionKeeps(db: Db, id: int, outcome: string, q: real, sellPrice: real,
                         sharePrice: real, closeDate: string)
    requires CloseOptionDefined(db, id, outcome, q) && LedgerOk(db)
    ensures CloseOption(db, id, outcome, q, sellPrice, sharePrice, closeDate).Ok? ==>
              LedgerOk(CloseOption(db, id, outcome, q, sellPrice, sharePrice, closeDate).value)
  {
    match ByKey(db.options, OptionKey, id)
    case None =>
    case Some(k) =>
      var pos := db.options[k];
      if 0.0 < q <= pos.quantity {
        OutcomeSharesKeeps(db, outcome, pos, q, sharePrice, OutcomeCloseDate(outcome, pos.expDate, closeDate));
        CloseOptionKeepsAfterShares(db, id, outcome, q, sellPrice, sharePrice, closeDate, k);
      }
  }

  /** The stock side of an option close keeps the ledger invariants. */
  lemma OutcomeSharesKeeps(db: Db, outcome: string, pos: OptionPos, q: real, sharePrice: real, closeDate: string)
    requires LedgerOk(db) && q > 0.0
    requires outcome == Assigned ==> MergeDefined(db.stocks, pos.ticker, q * 100.0)
    ensures LedgerOk(OutcomeShares(db, outcome, pos, q, sharePrice, closeDate))
  {
    if outcome == CalledAway {
      CalledAwayKeeps(db, pos, q, sharePrice, closeDate);
    } else if outcome == Assigned {
      AssignedKeeps(db, pos, q, sharePrice, closeDate);
    }
  }

  lemma CalledAwayKeeps(db: Db, pos: OptionPos, q: real, sharePrice: real, closeDate: string)
    requires LedgerOk(db)
    ensures LedgerOk(OutcomeShares(db, CalledAway, pos, q, sharePrice, closeDate))
  {
    CallAwayKeeps(db, pos.ticker, q * 100.0, sharePrice, closeDate);
  }

  lemma AssignedKeeps(db: Db, pos: OptionPos, q: real, sharePrice: real, closeDate: string)
    requires LedgerOk(db) && q > 0.0
    ensures LedgerOk(OutcomeShares(db, Assigned, pos, q, sharePrice, closeDate))
  {
    AddSharesKeeps(db, pos.ticker, q * 100.0, pos.strike, closeDate);
  }

  /** The option side of a close keeps the invariants the stock side left. */
  lemma CloseOptionKeepsAfterShares(db: Db, id: int, outcome: string, q: real, sellPrice: real,
                                    sharePrice: real, closeDate: string, k: nat)
    requires CloseOptionDefined(db, id, outcome, q) && ByKey(db.options, OptionKey, id) == Some(k)
    requires 0.0 < q <= db.options[k].quantity && LedgerOk(db)
    requires LedgerOk(OutcomeShares(db, outcome, db.options[k], q, sharePrice,
                                    OutcomeCloseDate(outcome, db.options[k].expDate, closeDate)))
    ensures LedgerOk(CloseOption(db, id, outcome, q, sellPrice, sharePrice, closeDate).value)
  {
    var pos := db.options[k];
    CloseOptionShape(db, id, outcome, q, sellPrice, sharePrice, closeDate, k);
    KeyedAppend(db.closedOptions, ClosedOptionKey, db.nextClosedOption, ClosedOptionRow(db, pos, outcome, q, sellPrice, closeDate));
    ShrinkOptionKeeps(db.options, k, q, CollateralShare(pos.collateral, pos.quantity, q), db.nextOption);
  }

  // ----- edits and deletes -----

  datatype UpdateError = DuplicateLot

  /** `HandleUpdateStockPosition`: overwrite lot `id`. The update fails, with
      no change, when another lot already has the new ticker and open date
      (the UNIQUE constraint); an unknown id changes nothing. */
  function UpdateStock(db: Db, id: int, ticker: string, quantity: real, costBasis: real, openDate: string): (r: Result<Db, UpdateError>)
    ensures r.Err? <==> match ByKey(db.stocks, StockKey, id)
                        case None => false
                        case Some(k) => exists j :: 0 <= j < |db.stocks| && j != k &&
                                          db.stocks[j].ticker == ticker && db.stocks[j].openDate == openDate
    ensures r.Ok? ==> r.value.options == db.options && r.value.closedStocks == db.closedStocks &&
                      r.value.closedOptions == db.closedOptions && |r.value.stocks| == |db.stocks|
  {
    match ByKey(db.stocks, StockKey, id)
    case None => Ok(db)
    case Some(k) =>
      if exists j :: 0 <= j < |db.stocks| && j != k && db.stocks[j].ticker == ticker && db.stocks[j].openDate == openDate
      then Err(DuplicateLot)
      else Ok(db.(stocks := db.stocks[k := StockPos(id, openDate, ticker, quantity, costBasis)]))
  }

  /** The edit keeps the weaker invariant. */
  lemma UpdateStockKeeps(db: Db, id: int, ticker: string, quantity: real, costBasis: real, openDate: string)
    requires EditableOk(db)
    ensures UpdateStock(db, id, ticker, quantity, costBasis, openDate).Ok? ==>
              EditableOk(UpdateStock(db, id, ticker, quantity, costBasis, openDate).value)
  {
    match ByKey(db.stocks, StockKey, id)
    case None =>
    case Some(k) =>
      KeyedUpdate(db.stocks, StockKey, db.nextStock, k, StockPos(id, openDate, ticker, quantity, costBasis));
  }

  /** ... but not one lot per ticker: renaming a lot's ticker, or moving its
      open date, can give a ticker two lots. */
  lemma UpdateStockCanSplitTicker()
    ensures var db := Empty.(stocks := [StockPos(1, "2024-01-02", "AAA", 10.0, 5.0), StockPos(2, "2024-01-03", "BBB", 10.0, 5.0)],
                             nextStock := 3);
            LedgerOk(db) &&
            UpdateStock(db, 2, "AAA", 10.0, 5.0, "2024-01-03").Ok? &&
            !OneLotPerTicker(UpdateStock(db, 2, "AAA", 10.0, 5.0, "2024-01-03").value.stocks)
  {
    var db := Empty.(stocks := [StockPos(1, "2024-01-02", "AAA", 10.0, 5.0), StockPos(2, "2024-01-03", "BBB", 10.0, 5.0)],
                     nextStock := 3);
    assert ByKey(db.stocks, StockKey, 2) == Some(1);
    assert db.stocks[0].openDate != "2024-01-03";
    var r := UpdateStock(db, 2, "AAA", 10.0, 5.0, "2024-01-03").value;
    assert r.stocks[0].ticker == r.stocks[1].ticker;
  }

  /** `HandleUpdateOptionPosition`: overwrite option `id`, keeping its
      quantity and resetting its collateral to 0. */
  function UpdateOption(db: Db, id: int, ticker: string, optionType: string, strike: real, premium: real,
                        price: real, expDate: string, purchaseDate: string): (r: Db)
    ensures r.stocks == db.stocks && r.closedStocks == db.closedStocks && r.closedOptions == db.closedOptions
    ensures |r.options| == |db.options|
    ensures forall i :: 0 <= i < |db.options| ==>
              r.options[i].id == db.options[i].id && r.options[i].quantity == db.options[i].quantity
    ensures forall i :: 0 <= i < |db.options| && db.options[i].id != id ==> r.options[i] == db.options[i]
  {
    match ByKey(db.options, OptionKey, id)
    case None => db
    case Some(k) =>
      db.(options := db.options[k := OptionPos(id, ticker, price, premium, strike, expDate, optionType, 0.0,
                                               db.options[k].quantity, purchaseDate)])
  }

  /** Editing an option drops its collateral from the ticker's held collateral. */
  lemma UpdateOptionDropsCollateral(db: Db, id: int, ticker: string, optionType: string, strike: real,
                                    premium: real, price: real, expDate: string, purchaseDate: string)
    requires ByKey(db.options, OptionKey, id).Some?
    ensures var was := db.options[ByKey(db.options, OptionKey, id).value];
            var r := UpdateOption(db, id, ticker, optionType, strike, premium, price, expDate, purchaseDate);
            Sum(r.options, HeldCollateral(was.ticker)) == Sum(db.options, HeldCollateral(was.ticker)) - was.collateral
  {
    var k := ByKey(db.options, OptionKey, id).value;
    var x := OptionPos(id, ticker, price, premium, strike, expDate, optionType, 0.0, db.options[k].quantity, purchaseDate);
    assert HeldCollateral(db.options[k].ticker)(x) == 0.0;
    SumUpdate(db.options, k, x, HeldCollateral(db.options[k].ticker));
  }

  lemma UpdateOptionKeeps(db: Db, id: int, ticker: string, optionType: string, strike: real, premium: real,
                          price: real, expDate: string, purchaseDate: string)
    requires LedgerOk(db)
    ensures LedgerOk(UpdateOption(db, id, ticker, optionType, strike, premium, price, expDate, purchaseDate))
  {
    match ByKey(db.options, OptionKey, id)
    case None =>
    case Some(k) =>
      KeyedUpdate(db.options, OptionKey, db.nextOption, k,
                  OptionPos(id, ticker, price, premium, strike, expDate, optionType, 0.0, db.options[k].quantity, purchaseDate));
  }

  /** `HandleDeleteStockPosition`. */
  function DeleteStock(db: Db, id: int): (r: Db)
    ensures r.options == db.options && r.closedStocks == db.closedStocks && r.closedOptions == db.closedOptions
    ensures |r.stocks| <= |db.stocks|
  {
    db.(stocks := DeleteKey(db.stocks, StockKey, id))
  }

  /** `HandleDeleteOptionPosition`. */
  function DeleteOption(db: Db, id: int): (r: Db)
    ensures r.stocks == db.stocks && r.closedStocks == db.closedStocks && r.closedOptions == db.closedOptions
    ensures |r.options| <= |db.options|
  {
    db.(options := DeleteKey(db.options, OptionKey, id))
  }

  /** A delete removes exactly the row with that id and keeps the invariant. */
  lemma DeleteStockKeeps(db: Db, id: int)
    requires LedgerOk(db)
    ensures forall p :: p in DeleteStock(db, id).stocks <==> p in db.stocks && p.id != id
    ensures LedgerOk(DeleteStock(db, id))
  {
    DeleteKeyExact(db.stocks, StockKey, db.nextStock, id);
    match ByKey(db.stocks, StockKey, id)
    case None =>
    case Some(k) => ShrinkLotKeeps(db.stocks, k, db.stocks[k].quantity, db.nextStock);
  }

  lemma DeleteOptionKeeps(db: Db, id: int)
    requires LedgerOk(db)
    ensures forall p :: p in DeleteOption(db, id).options <==> p in db.options && p.id != id
    ensures LedgerOk(DeleteOption(db, id))
  {
    DeleteKeyExact(db.options, OptionKey, db.nextOption, id);
    match ByKey(db.options, OptionKey, id)
    case None =>
    case Some(k) => ShrinkOptionKeeps(db.options, k, db.options[k].quantity, 0.0, db.nextOption);
  }
}
