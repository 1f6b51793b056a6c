/** The records of types/types.go and the return formulas defined on closed
    rows. Trade codes and option types are kept as the strings the program
    stores, because rows may carry any text in those columns. Money and
    quantities are real numbers; Go divides floats and yields an infinity or
    NaN on a zero divisor, so each formula here requires its divisor to be
    non-zero. */
module Types {

  // trade codes
  const Buy := "Buy"
  const Sell := "Sell"
  const BTO := "BTO"
  const BTC := "BTC"
  const STO := "STO"
  const STC := "STC"

  // option types
  const Put := "Put"
  const Call := "Call"
  const CSP := "CSP"
  const CC := "CC"

  /** One share trade read from a brokerage export. */
  datatype StockTrade = StockTrade(ticker: string, date: string, code: string,
                                   price: real, amount: real, quantity: real)

  /** One option trade read from a brokerage export. */
  datatype OptionTrade = OptionTrade(ticker: string, date: string, code: string,
                                     price: real, amount: real, quantity: real,
                                     strike: real, expDate: string, optionType: string,
                                     premium: real)

  /** A row of stock_positions: an open lot. */
  datatype StockPos = StockPos(id: int, openDate: string, ticker: string,
                               quantity: real, costBasis: real)

  /** A row of closed_stocks: a realised share sale. */
  datatype ClosedStock = ClosedStock(id: int, ticker: string, openDate: string, closeDate: string,
                                     quantity: real, costBasis: real, sellPrice: real,
                                     profitLoss: real)

  /** A row of option_positions: an open option position. */
  datatype OptionPos = OptionPos(id: int, ticker: string, price: real, premium: real,
                                 strike: real, expDate: string, optionType: string,
                                 collateral: real, quantity: real, purchaseDate: string)

  /** A row of closed_options: a realised option close. */
  datatype ClosedOption = ClosedOption(id: int, ticker: string, price: real, premium: real,
                                       strike: real, expDate: string, optionType: string,
                                       collateral: real, quantity: real, purchaseDate: string,
                                       closeDate: string, sellPrice: real, profitLoss: real)

  /** Long options are measured against the premium paid. */
  predicate IsLongType(t: string) { t == Call || t == Put }

  /** Short options are measured against the collateral held. */
  predicate IsShortType(t: string) { t == CC || t == CSP }

  /** `ClosedStock.CalculateROR`: the fraction of the cost basis gained. */
  function StockRor(c: ClosedStock): (r: real)
    requires c.costBasis != 0.0
    ensures r * c.costBasis == c.profitLoss
  {
    c.profitLoss / c.costBasis
  }

  /** The divisor `ClosedOption.CalculateROR` uses for this row is non-zero. */
  predicate OptionRorDefined(c: ClosedOption)
  {
    (IsLongType(c.optionType) ==> c.premium != 0.0) &&
    (IsShortType(c.optionType) ==> c.collateral != 0.0)
  }

  /** `ClosedOption.CalculateROR`: P/L over the premium for a long option,
      over the collateral for a short one, 0 for any other type. */
  function OptionRor(c: ClosedOption): (r: real)
    requires OptionRorDefined(c)
    ensures IsLongType(c.optionType) ==> r * c.premium == c.profitLoss
    ensures IsShortType(c.optionType) ==> r * c.collateral == c.profitLoss
    ensures !IsLongType(c.optionType) && !IsShortType(c.optionType) ==> r == 0.0
  {
    if IsLongType(c.optionType) then c.profitLoss / c.premium
    else if IsShortType(c.optionType) then c.profitLoss / c.collateral
    else 0.0
  }

  /** `ClosedOption.RORPercent`. */
  function OptionRorPercent(c: ClosedOption): (r: real)
    requires OptionRorDefined(c)
    ensures IsLongType(c.optionType) ==> r * c.premium == 100.0 * c.profitLoss
    ensures IsShortType(c.optionType) ==> r * c.collateral == 100.0 * c.profitLoss
    ensures !IsLongType(c.optionType) && !IsShortType(c.optionType) ==> r == 0.0
  {
    OptionRor(c) * 100.0
  }

  /** `ClosedStock.PlPercent`: P/L as a percentage of the total amount invested. */
  function StockPlPercent(c: ClosedStock): (r: real)
    requires c.costBasis * c.quantity != 0.0
    ensures r * (c.costBasis * c.quantity) == 100.0 * c.profitLoss
  {
    (c.profitLoss / (c.costBasis * c.quantity)) * 100.0
  }

  /** `ClosedOption.PlPercent`: P/L as a percentage of premium plus collateral. */
  function OptionPlPercent(c: ClosedOption): (r: real)
    requires c.premium + c.collateral != 0.0
    ensures r * (c.premium + c.collateral) == 100.0 * c.profitLoss
  {
    (c.profitLoss / (c.premium + c.collateral)) * 100.0
  }

  /** What selling `quantity` shares bought at `costBasis` for `sellPrice` realises. */
  function SalePL(costBasis: real, sellPrice: real, quantity: real): real
  {
    (sellPrice - costBasis) * quantity
  }

  /** A closed stock row whose P/L is what its prices and quantity realise. */
  predicate ClosedStockConsistent(c: ClosedStock)
  {
    c.profitLoss == SalePL(c.costBasis, c.sellPrice, c.quantity)
  }

  /** For a consistent row, the P/L percentage is the per-share price return,
      whatever the quantity. */
  lemma StockPlPercentIsPriceReturn(c: ClosedStock)
    requires ClosedStockConsistent(c) && c.costBasis != 0.0 && c.quantity != 0.0
    ensures StockPlPercent(c) == 100.0 * (c.sellPrice - c.costBasis) / c.costBasis
  {
    var q, b := c.quantity, c.costBasis;
    var r := StockPlPercent(c);
    assert r * (b * q) == 100.0 * (c.sellPrice - b) * q;
    assert (r * b) * q == (100.0 * (c.sellPrice - b)) * q;
    assert r * b == 100.0 * (c.sellPrice - b);
  }

  /** The stock ROR is the P/L percentage scaled by the quantity: unlike the
      P/L percentage it is not a per-share figure. */
  lemma StockRorScalesWithQuantity(c: ClosedStock)
    requires c.costBasis != 0.0 && c.quantity != 0.0
    ensures StockRor(c) * 100.0 == c.quantity * StockPlPercent(c)
  {
    var q, b := c.quantity, c.costBasis;
    var r, p := StockRor(c), StockPlPercent(c);
    assert r * b == c.profitLoss;
    assert p * (b * q) == 100.0 * c.profitLoss;
    assert (q * p) * b == (r * 100.0) * b;
  }
}
