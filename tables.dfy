/** The four tables of one user's ledger (stock_positions, option_positions,
    closed_stocks, closed_options of database.go) and the row-level steps the
    handlers repeat: single-row lookups, AUTOINCREMENT inserts, the
    shrink-or-delete of a partly closed row, weighted averages and the
    proportional collateral split. Every handler's query filters on the
    session's user id, so one user's rows are modelled and the user id column
    is left out. Tables are kept in rowid order. A single-row SELECT without
    ORDER BY is modelled as returning the first matching row in that order;
    SQLite promises no order, and an index scan may pick another row. */
module Tables {
  import opened Seqs
  import opened Types
  import opened Totals

  datatype Db = Db(stocks: seq<StockPos>, options: seq<OptionPos>,
                   closedStocks: seq<ClosedStock>, closedOptions: seq<ClosedOption>,
                   nextStock: int, nextOption: int, nextClosedStock: int, nextClosedOption: int)

  /** A new user's ledger. */
  const Empty := Db([], [], [], [], 1, 1, 1, 1)

  // ----- primary keys -----

  function StockKey(p: StockPos): int { p.id }
  function OptionKey(p: OptionPos): int { p.id }
  function ClosedStockKey(c: ClosedStock): int { c.id }
  function ClosedOptionKey(c: ClosedOption): int { c.id }

  /** Ids strictly increase in table order and stay below the table's
      AUTOINCREMENT counter. */
  predicate Keyed<T>(s: seq<T>, key: T -> int, next: int)
  {
    (forall i :: 0 <= i < |s| ==> key(s[i]) < next) &&
    (forall i, j :: 0 <= i < j < |s| ==> key(s[i]) < key(s[j]))
  }

  predicate KeysOk(db: Db)
  {
    Keyed(db.stocks, StockKey, db.nextStock) && Keyed(db.options, OptionKey, db.nextOption) &&
    Keyed(db.closedStocks, ClosedStockKey, db.nextClosedStock) &&
    Keyed(db.closedOptions, ClosedOptionKey, db.nextClosedOption)
  }

  lemma KeyedAppend<T>(s: seq<T>, key: T -> int, next: int, x: T)
    requires Keyed(s, key, next) && key(x) == next
    ensures Keyed(s + [x], key, next + 1)
  {
  }

  lemma KeyedUpdate<T>(s: seq<T>, key: T -> int, next: int, k: nat, x: T)
    requires Keyed(s, key, next) && k < |s| && key(x) == key(s[k])
    ensures Keyed(s[k := x], key, next)
  {
  }

  lemma KeyedRemove<T>(s: seq<T>, key: T -> int, next: int, k: nat)
    requires Keyed(s, key, next) && k < |s|
    ensures Keyed(RemoveAt(s, k), key, next)
  {
  }

  /** With increasing ids, the row a lookup by id finds is the only row with
      that id, so updating or deleting it is what `WHERE id = ?` does. */
  lemma KeyedUnique<T>(s: seq<T>, key: T -> int, next: int, i: nat, j: nat)
    requires Keyed(s, key, next) && i < |s| && j < |s| && key(s[i]) == key(s[j])
    ensures i == j
  {
  }

  /** The first row whose key is `id`. */
  function ByKey<T>(s: seq<T>, key: T -> int, id: int): (r: Option<nat>)
    ensures r.Some? ==> r.value < |s| && key(s[r.value]) == id
    ensures r.None? ==> forall j :: 0 <= j < |s| ==> key(s[j]) != id
  {
    FindFirst(s, (x: T) => key(x) == id)
  }

  /** `DELETE … WHERE id = ?`: the row found by id removed, if there is one. */
  function DeleteKey<T>(s: seq<T>, key: T -> int, id: int): (r: seq<T>)
    ensures |r| <= |s|
  {
    match ByKey(s, key, id)
    case None => s
    case Some(k) => RemoveAt(s, k)
  }

  /** With unique ids, the delete removes exactly the rows with that id and
      keeps the rest in order. */
  lemma DeleteKeyExact<T>(s: seq<T>, key: T -> int, next: int, id: int)
    requires Keyed(s, key, next)
    ensures Keyed(DeleteKey(s, key, id), key, next)
    ensures forall x :: x in DeleteKey(s, key, id) <==> x in s && key(x) != id
  {
    match ByKey(s, key, id)
    case None =>
    case Some(k) =>
      KeyedRemove(s, key, next, k);
      var r := RemoveAt(s, k);
      forall x
        ensures x in r <==> x in s && key(x) != id
      {
        if x in r {
          var j :| 0 <= j < |r| && r[j] == x;
          if j < k { assert s[j] == x; } else { assert s[j + 1] == x; }
        }
        if x in s && key(x) != id {
          var j :| 0 <= j < |s| && s[j] == x;
          assert j != k;
          if j < k { assert r[j] == x; } else { assert r[j - 1] == x; }
        }
      }
  }

  // ----- inserts -----

  function InsertStock(db: Db, p: StockPos): (r: Db)
    ensures r.stocks == db.stocks + [p.(id := db.nextStock)] && r.nextStock == db.nextStock + 1
    ensures r.(stocks := db.stocks, nextStock := db.nextStock) == db
  {
    db.(stocks := db.stocks + [p.(id := db.nextStock)], nextStock := db.nextStock + 1)
  }

  function InsertOption(db: Db, p: OptionPos): (r: Db)
    ensures r.options == db.options + [p.(id := db.nextOption)] && r.nextOption == db.nextOption + 1
    ensures r.(options := db.options, nextOption := db.nextOption) == db
  {
    db.(options := db.options + [p.(id := db.nextOption)], nextOption := db.nextOption + 1)
  }

  function InsertClosedStock(db: Db, c: ClosedStock): (r: Db)
    ensures r.closedStocks == db.closedStocks + [c.(id := db.nextClosedStock)]
    ensures r.nextClosedStock == db.nextClosedStock + 1
    ensures r.(closedStocks := db.closedStocks, nextClosedStock := db.nextClosedStock) == db
  {
    db.(closedStocks := db.closedStocks + [c.(id := db.nextClosedStock)],
        nextClosedStock := db.nextClosedStock + 1)
  }

  function InsertClosedOption(db: Db, c: ClosedOption): (r: Db)
    ensures r.closedOptions == db.closedOptions + [c.(id := db.nextClosedOption)]
    ensures r.nextClosedOption == db.nextClosedOption + 1
    ensures r.(closedOptions := db.closedOptions, nextClosedOption := db.nextClosedOption) == db
  {
    db.(closedOptions := db.closedOptions + [c.(id := db.nextClosedOption)],
        nextClosedOption := db.nextClosedOption + 1)
  }

  // ----- holdings -----

  /** The lot a `WHERE ticker = ?` lookup of stock_positions returns: the
      first in rowid order. Under `OneLotPerTicker` there is only one. */
  function LotOf(s: seq<StockPos>, ticker: string): (r: Option<nat>)
    ensures r.Some? ==> r.value < |s| && s[r.value].ticker == ticker
    ensures r.None? ==> forall j :: 0 <= j < |s| ==> s[j].ticker != ticker
  {
    FindFirst(s, (p: StockPos) => p.ticker == ticker)
  }

  /** Every creation path looks the ticker up first, so a ticker has at most one lot. */
  predicate OneLotPerTicker(s: seq<StockPos>)
  {
    forall i, j :: 0 <= i < j < |s| ==> s[i].ticker != s[j].ticker
  }

  predicate PositiveLots(s: seq<StockPos>)
  {
    forall i :: 0 <= i < |s| ==> s[i].quantity > 0.0
  }

  predicate PositiveOptions(s: seq<OptionPos>)
  {
    forall i :: 0 <= i < |s| ==> s[i].quantity > 0.0
  }

  /** The invariant the add, close, assign and import paths keep. */
  predicate HoldingsOk(db: Db)
  {
    OneLotPerTicker(db.stocks) && PositiveLots(db.stocks) && PositiveOptions(db.options)
  }

  /** `UNIQUE(user_id, ticker, open_date)` on stock_positions. */
  predicate UniqueLotDates(s: seq<StockPos>)
  {
    forall i, j :: 0 <= i < j < |s| ==> s[i].ticker != s[j].ticker || s[i].openDate != s[j].openDate
  }

  /** Every closed stock row's P/L is what its prices and quantity realise. */
  predicate SalesConsistent(cs: seq<ClosedStock>)
  {
    forall i :: 0 <= i < |cs| ==> ClosedStockConsistent(cs[i])
  }

  /** What every handler except the stock-position edit keeps. */
  predicate LedgerOk(db: Db)
  {
    KeysOk(db) && HoldingsOk(db) && SalesConsistent(db.closedStocks)
  }

  /** The weaker invariant that the stock-position edit keeps as well. */
  predicate EditableOk(db: Db)
  {
    KeysOk(db) && UniqueLotDates(db.stocks) && PositiveOptions(db.options) && SalesConsistent(db.closedStocks)
  }

  lemma LedgerOkIsEditableOk(db: Db)
    requires LedgerOk(db)
    ensures EditableOk(db)
  {
  }

  lemma EmptyLedgerOk()
    ensures LedgerOk(Empty)
  {
  }

  // ----- per-ticker totals -----

  /** Shares of `t` held in open lots. */
  function Held(t: string): StockPos -> real
  {
    (p: StockPos) => if p.ticker == t then p.quantity else 0.0
  }

  /** Money paid for `quantity` shares at `price` each. */
  function Cost(quantity: real, price: real): real
  {
    quantity * price
  }

  /** Money invested in the open lots of `t` (quantity times cost basis). */
  function Invested(t: string): StockPos -> real
  {
    (p: StockPos) => if p.ticker == t then Cost(p.quantity, p.costBasis) else 0.0
  }

  /** Shares of `t` recorded as sold. */
  function Sold(t: string): ClosedStock -> real
  {
    (c: ClosedStock) => if c.ticker == t then c.quantity else 0.0
  }

  /** Contracts of `t` still open. */
  function OpenContracts(t: string): OptionPos -> real
  {
    (p: OptionPos) => if p.ticker == t then p.quantity else 0.0
  }

  /** Contracts of `t` recorded as closed. */
  function ClosedContracts(t: string): ClosedOption -> real
  {
    (c: ClosedOption) => if c.ticker == t then c.quantity else 0.0
  }

  /** Collateral still held by the open positions of `t`. */
  function HeldCollateral(t: string): OptionPos -> real
  {
    (p: OptionPos) => if p.ticker == t then p.collateral else 0.0
  }

  /** Collateral attributed to the closed rows of `t`. */
  function ReleasedCollateral(t: string): ClosedOption -> real
  {
    (c: ClosedOption) => if c.ticker == t then c.collateral else 0.0
  }

  function StockPL(c: ClosedStock): real { c.profitLoss }
  function OptionPL(c: ClosedOption): real { c.profitLoss }

  // ----- shared arithmetic -----

  /** The quantity-weighted average of two values: total value is conserved. */
  function WeightedAverage(q1: real, v1: real, q2: real, v2: real): (r: real)
    requires q1 + q2 != 0.0
    ensures r * (q1 + q2) == v1 * q1 + v2 * q2
  {
    (v1 * q1 + v2 * q2) / (q1 + q2)
  }

  /** For positive weights the average lies between the two values. */
  lemma WeightedAverageBetween(q1: real, v1: real, q2: real, v2: real)
    requires q1 > 0.0 && q2 > 0.0
    ensures v1 <= v2 ==> v1 <= WeightedAverage(q1, v1, q2, v2) <= v2
    ensures v2 <= v1 ==> v2 <= WeightedAverage(q1, v1, q2, v2) <= v1
  {
    var r := WeightedAverage(q1, v1, q2, v2);
    var w := q1 + q2;
    assert r * w == v1 * q1 + v2 * q2;
    if v1 <= v2 {
      assert v1 * w <= r * w <= v2 * w;
    } else {
      assert v2 * w <= r * w <= v1 * w;
    }
  }

  /** The collateral that goes with `q` of `current` contracts:
      `collateral / current * q`. */
  function CollateralShare(collateral: real, current: real, q: real): (r: real)
    requires current != 0.0
    ensures r * current == collateral * q
    ensures q == current ==> r == collateral
  {
    collateral / current * q
  }

  /** Closing part of a position releases a share between none and all of it. */
  lemma CollateralShareBounds(collateral: real, current: real, q: real)
    requires 0.0 < q <= current && collateral >= 0.0
    ensures 0.0 <= CollateralShare(collateral, current, q) <= collateral
  {
    var r := CollateralShare(collateral, current, q);
    assert r * current == collateral * q;
    assert collateral * q <= collateral * current;
  }

  // ----- shrink or delete -----

  /** Lot `k` after `q` of its shares leave it: updated while shares remain,
      deleted otherwise. */
  function ShrinkLot(s: seq<StockPos>, k: nat, q: real): seq<StockPos>
    requires k < |s|
  {
    var remaining := s[k].quantity - q;
    if remaining > 0.0 then s[k := s[k].(quantity := remaining)] else RemoveAt(s, k)
  }

  /** Position `k` after `q` contracts and `share` of its collateral leave it:
      updated while contracts remain, deleted otherwise. */
  function ShrinkOption(s: seq<OptionPos>, k: nat, q: real, share: real): seq<OptionPos>
    requires k < |s|
  {
    var remaining := s[k].quantity - q;
    if remaining > 0.0 then s[k := s[k].(quantity := remaining, collateral := s[k].collateral - share)]
    else RemoveAt(s, k)
  }

  /** Shrinking a lot by at most its size takes exactly `q` shares of its
      ticker out of the lots. */
  lemma ShrinkLotHeld(s: seq<StockPos>, k: nat, q: real)
    requires k < |s| && q <= s[k].quantity
    requires s[k].quantity - q <= 0.0 ==> q == s[k].quantity
    ensures Sum(ShrinkLot(s, k, q), Held(s[k].ticker)) == Sum(s, Held(s[k].ticker)) - q
  {
    SumShrinkAt(s, k, s[k].quantity - q > 0.0, s[k].(quantity := s[k].quantity - q), Held(s[k].ticker), q);
  }

  /** Shrinking keeps both holding invariants and the keys. */
  lemma ShrinkLotKeeps(s: seq<StockPos>, k: nat, q: real, next: int)
    requires k < |s|
    ensures OneLotPerTicker(s) ==> OneLotPerTicker(ShrinkLot(s, k, q))
    ensures PositiveLots(s) ==> PositiveLots(ShrinkLot(s, k, q))
    ensures Keyed(s, StockKey, next) ==> Keyed(ShrinkLot(s, k, q), StockKey, next)
  {
    var remaining := s[k].quantity - q;
    if remaining > 0.0 {
      if Keyed(s, StockKey, next) {
        KeyedUpdate(s, StockKey, next, k, s[k].(quantity := remaining));
      }
    } else if Keyed(s, StockKey, next) {
      KeyedRemove(s, StockKey, next, k);
    }
  }

  /** Shrinking a position by at most its size moves exactly `q` contracts of
      its ticker out of the open positions. */
  lemma ShrinkOptionContracts(s: seq<OptionPos>, k: nat, q: real, share: real)
    requires k < |s| && q <= s[k].quantity
    requires s[k].quantity - q <= 0.0 ==> q == s[k].quantity
    ensures Sum(ShrinkOption(s, k, q, share), OpenContracts(s[k].ticker)) == Sum(s, OpenContracts(s[k].ticker)) - q
  {
    var x := s[k].(quantity := s[k].quantity - q, collateral := s[k].collateral - share);
    SumShrinkAt(s, k, s[k].quantity - q > 0.0, x, OpenContracts(s[k].ticker), q);
  }

  /** ... and exactly `share` of its collateral, provided a deleted position
      releases all of it. */
  lemma ShrinkOptionCollateral(s: seq<OptionPos>, k: nat, q: real, share: real)
    requires k < |s|
    requires s[k].quantity - q <= 0.0 ==> share == s[k].collateral
    ensures Sum(ShrinkOption(s, k, q, share), HeldCollateral(s[k].ticker)) == Sum(s, HeldCollateral(s[k].ticker)) - share
  {
    var x := s[k].(quantity := s[k].quantity - q, collateral := s[k].collateral - share);
    var f := HeldCollateral(s[k].ticker);
    assert f(s[k]) == s[k].collateral && f(x) == s[k].collateral - share;
    SumShrinkAt(s, k, s[k].quantity - q > 0.0, x, f, share);
  }

  lemma ShrinkOptionKeeps(s: seq<OptionPos>, k: nat, q: real, share: real, next: int)
    requires k < |s|
    ensures PositiveOptions(s) ==> PositiveOptions(ShrinkOption(s, k, q, share))
    ensures Keyed(s, OptionKey, next) ==> Keyed(ShrinkOption(s, k, q, share), OptionKey, next)
  {
    var remaining := s[k].quantity - q;
    if remaining > 0.0 {
      if Keyed(s, OptionKey, next) {
        KeyedUpdate(s, OptionKey, next, k, s[k].(quantity := remaining, collateral := s[k].collateral - share));
      }
    } else if Keyed(s, OptionKey, next) {
      KeyedRemove(s, OptionKey, next, k);
    }
  }
}
