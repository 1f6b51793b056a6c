/** The ledger changes made by handlers/history.go: editing and deleting
    closed rows. An edit overwrites the row with the submitted values and
    recomputes its P/L from them; an unknown id (the UPDATE or DELETE matches
    no row) changes nothing. The history listings are in Listings. */
module History {
  import opened Seqs
  import opened Types
  import opened Totals
  import opened Tables
  import opened Positions

  // ----- closed stocks -----

  /** `HandleUpdateClosedStock`: every column of closed row `id` is
      overwritten (the ticker as typed, not upper-cased) and the P/L is
      recomputed as `(sellPrice - costBasis) * quantity`. */
  function EditClosedStock(db: Db, id: int, ticker: string, quantity: real, costBasis: real,
                           sellPrice: real, openDate: string, closeDate: string): (r: Db)
    ensures r.(closedStocks := db.closedStocks) == db
    ensures |r.closedStocks| == |db.closedStocks|
    ensures forall i :: 0 <= i < |db.closedStocks| && db.closedStocks[i].id != id ==>
              r.closedStocks[i] == db.closedStocks[i]
    ensures ByKey(db.closedStocks, ClosedStockKey, id).None? ==> r == db
  {
    match ByKey(db.closedStocks, ClosedStockKey, id)
    case None => db
    case Some(k) =>
      db.(closedStocks := db.closedStocks[k := ClosedStock(id, ticker, openDate, closeDate, quantity,
                                                           costBasis, sellPrice, SalePL(costBasis, sellPrice, quantity))])
  }

  /** The edited row holds the submitted values and realises its own P/L,
      and the realised stock P/L changes by the difference between the
      recomputed and the previous P/L of that row. */
  lemma EditClosedStockRow(db: Db, id: int, ticker: string, quantity: real, costBasis: real,
                           sellPrice: real, openDate: string, closeDate: string, k: nat)
    requires ByKey(db.closedStocks, ClosedStockKey, id) == Some(k)
    ensures var r := EditClosedStock(db, id, ticker, quantity, costBasis, sellPrice, openDate, closeDate);
            var c := r.closedStocks[k];
            c.id == id && c.ticker == ticker && c.quantity == quantity && c.costBasis == costBasis &&
            c.sellPrice == sellPrice && c.openDate == openDate && c.closeDate == closeDate &&
            ClosedStockConsistent(c) &&
            Sum(r.closedStocks, StockPL) ==
              Sum(db.closedStocks, StockPL) - db.closedStocks[k].profitLoss + SalePL(costBasis, sellPrice, quantity)
  {
    var x := ClosedStock(id, ticker, openDate, closeDate, quantity, costBasis, sellPrice, SalePL(costBasis, sellPrice, quantity));
    SumUpdate(db.closedStocks, k, x, StockPL);
  }

  /** Because the P/L is recomputed, an edit keeps every closed stock row
      consistent, as well as the open tables and all keys. */
  lemma EditClosedStockKeeps(db: Db, id: int, ticker: string, quantity: real, costBasis: real,
                             sellPrice: real, openDate: string, closeDate: string)
    requires LedgerOk(db)
    ensures LedgerOk(EditClosedStock(db, id, ticker, quantity, costBasis, sellPrice, openDate, closeDate))
  {
    match ByKey(db.closedStocks, ClosedStockKey, id)
    case None =>
    case Some(k) =>
      var x := ClosedStock(id, ticker, openDate, closeDate, quantity, costBasis, sellPrice, SalePL(costBasis, sellPrice, quantity));
      KeyedUpdate(db.closedStocks, ClosedStockKey, db.nextClosedStock, k, x);
  }

  /** `HandleDeleteClosedStock`. */
  function DeleteClosedStock(db: Db, id: int): (r: Db)
    ensures r.(closedStocks := db.closedStocks) == db
    ensures |r.closedStocks| <= |db.closedStocks|
  {
    db.(closedStocks := DeleteKey(db.closedStocks, ClosedStockKey, id))
  }

  /** A delete removes exactly the row with that id, takes its P/L out of
      the realised total, and keeps the invariant. */
  lemma DeleteClosedStockKeeps(db: Db, id: int)
    requires LedgerOk(db)
    ensures forall c :: c in DeleteClosedStock(db, id).closedStocks <==> c in db.closedStocks && c.id != id
    ensures LedgerOk(DeleteClosedStock(db, id))
    ensures Sum(DeleteClosedStock(db, id).closedStocks, StockPL) ==
              Sum(db.closedStocks, StockPL) -
              match ByKey(db.closedStocks, ClosedStockKey, id)
              case None => 0.0
              case Some(k) => db.closedStocks[k].profitLoss
  {
    DeleteKeyExact(db.closedStocks, ClosedStockKey, db.nextClosedStock, id);
    match ByKey(db.closedStocks, ClosedStockKey, id)
    case None =>
    case Some(k) => SumRemoveAt(db.closedStocks, k, StockPL);
  }

  // ----- closed options -----

  /** The P/L `HandleUpdateClosedOption` records: the switch is on the
      lower-case type strings of the edit form, and the result is for one
      contract whatever the row's quantity. */
  function EditedOptionPL(optionType: string, premium: real, sellPrice: real): real
  {
    if optionType == "call" || optionType == "put" then sellPrice - premium
    else if optionType == "csp" || optionType == "cc" then premium - sellPrice
    else 0.0
  }

  /** `HandleUpdateClosedOption`: overwrite closed option `id` with the
      submitted values, collateral included, keeping its quantity; the P/L is
      `EditedOptionPL` of the submitted type, premium and sell price. */
  function EditClosedOption(db: Db, id: int, ticker: string, optionType: string, strike: real,
                            premium: real, price: real, collateral: real, sellPrice: real,
                            expDate: string, purchaseDate: string, closeDate: string): (r: Db)
    ensures r.(closedOptions := db.closedOptions) == db
    ensures |r.closedOptions| == |db.closedOptions|
    ensures forall i :: 0 <= i < |db.closedOptions| ==>
              r.closedOptions[i].id == db.closedOptions[i].id &&
              r.closedOptions[i].quantity == db.closedOptions[i].quantity
    ensures forall i :: 0 <= i < |db.closedOptions| && db.closedOptions[i].id != id ==>
              r.closedOptions[i] == db.closedOptions[i]
    ensures ByKey(db.closedOptions, ClosedOptionKey, id).None? ==> r == db
  {
    match ByKey(db.closedOptions, ClosedOptionKey, id)
    case None => db
    case Some(k) =>
      db.(closedOptions := db.closedOptions[k := EditedOption(db.closedOptions[k], ticker, optionType, strike,
                                                              premium, price, collateral, sellPrice,
                                                              expDate, purchaseDate, closeDate)])
  }

  /** The row an edit writes over `c`. */
  function EditedOption(c: ClosedOption, ticker: string, optionType: string, strike: real,
                        premium: real, price: real, collateral: real, sellPrice: real,
                        expDate: string, purchaseDate: string, closeDate: string): (e: ClosedOption)
    ensures e.id == c.id && e.quantity == c.quantity
  {
    c.(ticker := ticker, optionType := optionType, strike := strike, premium := premium, price := price,
       collateral := collateral, sellPrice := sellPrice, expDate := expDate, purchaseDate := purchaseDate,
       closeDate := closeDate, profitLoss := EditedOptionPL(optionType, premium, sellPrice))
  }

  /** The edit realises the P/L of a single contract: the close of `q`
      contracts of the matching capitalised type records `q` times as much. */
  lemma EditedOptionPLPerContract(premium: real, sellPrice: real, q: real)
    ensures EditedOptionPL("call", premium, sellPrice) * q == OptionClosePL(Call, premium, sellPrice, q)
    ensures EditedOptionPL("put", premium, sellPrice) * q == OptionClosePL(Put, premium, sellPrice, q)
    ensures EditedOptionPL("csp", premium, sellPrice) * q == OptionClosePL(CSP, premium, sellPrice, q)
    ensures EditedOptionPL("cc", premium, sellPrice) * q == OptionClosePL(CC, premium, sellPrice, q)
  {
  }

  /** An edit through the form stores a lower-case type, which the return
      formula does not recognise: the edited row's ROR is 0. */
  lemma EditedOptionLosesRor(c: ClosedOption, ticker: string, optionType: string, strike: real,
                             premium: real, price: real, collateral: real, sellPrice: real,
                             expDate: string, purchaseDate: string, closeDate: string)
    requires optionType in {"call", "put", "csp", "cc"}
    ensures var e := EditedOption(c, ticker, optionType, strike, premium, price, collateral, sellPrice,
                                  expDate, purchaseDate, closeDate);
            OptionRorDefined(e) && OptionRor(e) == 0.0
  {
    assert optionType != Call && optionType != Put && optionType != CSP && optionType != CC by {
      assert optionType[0] != 'C' && optionType[0] != 'P';
    }
  }

  /** The realised option P/L changes by the difference between the edited
      and the previous P/L of the row. */
  lemma EditClosedOptionRealised(db: Db, id: int, ticker: string, optionType: string, strike: real,
                                 premium: real, price: real, collateral: real, sellPrice: real,
                                 expDate: string, purchaseDate: string, closeDate: string, k: nat)
    requires ByKey(db.closedOptions, ClosedOptionKey, id) == Some(k)
    ensures Sum(EditClosedOption(db, id, ticker, optionType, strike, premium, price, collateral, sellPrice,
                                 expDate, purchaseDate, closeDate).closedOptions, OptionPL) ==
              Sum(db.closedOptions, OptionPL) - db.closedOptions[k].profitLoss +
              EditedOptionPL(optionType, premium, sellPrice)
  {
    var x := EditedOption(db.closedOptions[k], ticker, optionType, strike, premium, price, collateral,
                          sellPrice, expDate, purchaseDate, closeDate);
    SumUpdate(db.closedOptions, k, x, OptionPL);
  }

  lemma EditClosedOptionKeeps(db: Db, id: int, ticker: string, optionType: string, strike: real,
                              premium: real, price: real, collateral: real, sellPrice: real,
                              expDate: string, purchaseDate: string, closeDate: string)
    requires LedgerOk(db)
    ensures LedgerOk(EditClosedOption(db, id, ticker, optionType, strike, premium, price, collateral,
                                      sellPrice, expDate, purchaseDate, closeDate))
  {
    match ByKey(db.closedOptions, ClosedOptionKey, id)
    case None =>
    case Some(k) =>
      KeyedUpdate(db.closedOptions, ClosedOptionKey, db.nextClosedOption, k,
                  EditedOption(db.closedOptions[k], ticker, optionType, strike, premium, price, collateral,
                               sellPrice, expDate, purchaseDate, closeDate));
  }

  /** `HandleDeleteClosedOption`. */
  function DeleteClosedOption(db: Db, id: int): (r: Db)
    ensures r.(closedOptions := db.closedOptions) == db
    ensures |r.closedOptions| <= |db.closedOptions|
  {
    db.(closedOptions := DeleteKey(db.closedOptions, ClosedOptionKey, id))
  }

  lemma DeleteClosedOptionKeeps(db: Db, id: int)
    requires LedgerOk(db)
    ensures forall c :: c in DeleteClosedOption(db, id).closedOptions <==> c in db.closedOptions && c.id != id
    ensures LedgerOk(DeleteClosedOption(db, id))
    ensures Sum(DeleteClosedOption(db, id).closedOptions, OptionPL) ==
              Sum(db.closedOptions, OptionPL) -
              match ByKey(db.closedOptions, ClosedOptionKey, id)
              case None => 0.0
              case Some(k) => db.closedOptions[k].profitLoss
  {
    DeleteKeyExact(db.closedOptions, ClosedOptionKey, db.nextClosedOption, id);
    match ByKey(db.closedOptions, ClosedOptionKey, id)
    case None =>
    case Some(k) => SumRemoveAt(db.closedOptions, k, OptionPL);
  }
}
