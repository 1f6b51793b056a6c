/** The row filters of the list handlers in handlers/positions.go and
    handlers/history.go. Each handler runs a SELECT (user, ticker search,
    optional type, open positions only) ordered by a date column, then keeps
    the rows whose date is in the requested range. The SELECT is specified
    here by what it returns: exactly the matching rows, in descending order
    of the date text. What the handlers then return is specified as a
    listing: the rows matching both conditions, in that order. */
module Listings {
  import opened Seqs
  import opened Text
  import opened Types
  import opened Dates

  // ----- query results and listings -----

  /** `ticker LIKE '%' || search || '%'` with the upper-cased search: LIKE
      ignores ASCII case, and an empty search matches every ticker. */
  predicate TickerLike(ticker: string, search: string)
  {
    Contains(ToUpper(ticker), ToUpper(search))
  }

  /** `ORDER BY key DESC` on a TEXT column. */
  predicate Descending<T>(s: seq<T>, key: T -> string)
  {
    forall i, j :: 0 <= i < j < |s| ==> TextLe(key(s[j]), key(s[i]))
  }

  /** The rows a SELECT returns: the rows of `table` satisfying `where`, each
      once, ordered by `key` descending; the order of ties is SQLite's. */
  ghost predicate QueryResult<T(!new)>(rows: seq<T>, table: seq<T>, where: T -> bool, key: T -> string)
  {
    multiset(rows) == multiset(Filter(table, where)) && Descending(rows, key)
  }

  /** A listing: the rows of `table` satisfying `where` and `keep`, ordered by
      `key` descending. */
  ghost predicate Listing<T(!new)>(out: seq<T>, table: seq<T>, where: T -> bool, keep: T -> bool, key: T -> string)
  {
    multiset(out) == multiset(Filter(Filter(table, where), keep)) && Descending(out, key)
  }

  /** How often `x` occurs in a filter: as often as in `s` when it passes. */
  lemma {:induction false} FilterCount<T(!new)>(s: seq<T>, p: T -> bool, x: T)
    ensures multiset(Filter(s, p))[x] == if p(x) then multiset(s)[x] else 0
  {
    if s != [] {
      var s' := s[..|s| - 1];
      FilterCount(s', p, x);
      assert s == s' + [s[|s| - 1]];
    }
  }

  /** Filtering respects permutations. */
  lemma FilterPermutation<T(!new)>(a: seq<T>, b: seq<T>, p: T -> bool)
    requires multiset(a) == multiset(b)
    ensures multiset(Filter(a, p)) == multiset(Filter(b, p))
  {
    forall x
      ensures multiset(Filter(a, p))[x] == multiset(Filter(b, p))[x]
    {
      FilterCount(a, p, x);
      FilterCount(b, p, x);
    }
  }

  /** Filtering keeps an order. */
  lemma {:induction false} FilterDescending<T(!new)>(s: seq<T>, p: T -> bool, key: T -> string)
    requires Descending(s, key)
    ensures Descending(Filter(s, p), key)
  {
    if s != [] {
      var s' := s[..|s| - 1];
      var x := s[|s| - 1];
      assert Descending(s', key);
      FilterDescending(s', p, key);
      var f := Filter(s', p);
      if p(x) {
        forall i | 0 <= i < |f|
          ensures TextLe(key(x), key(f[i]))
        {
          assert f[i] in s';
          var j :| 0 <= j < |s'| && s'[j] == f[i];
          assert s[j] == f[i];
        }
        assert Filter(s, p) == f + [x];
      }
    }
  }

  /** Keeping the rows of a query result that pass `keep` yields the listing. */
  lemma KeepFromQuery<T(!new)>(rows: seq<T>, table: seq<T>, where: T -> bool, keep: T -> bool, key: T -> string)
    requires QueryResult(rows, table, where, key)
    ensures Listing(Filter(rows, keep), table, where, keep, key)
  {
    FilterPermutation(rows, Filter(table, where), keep);
    FilterDescending(rows, keep, key);
  }

  /** A listing holds exactly the rows the two conditions select. */
  lemma ListingMembers<T(!new)>(out: seq<T>, table: seq<T>, where: T -> bool, keep: T -> bool, key: T -> string)
    requires Listing(out, table, where, keep, key)
    ensures forall x :: x in out <==> x in table && where(x) && keep(x)
  {
    forall x
      ensures x in out <==> x in table && where(x) && keep(x)
    {
      assert x in out <==> x in multiset(out);
      assert x in Filter(Filter(table, where), keep) <==> x in multiset(Filter(Filter(table, where), keep));
    }
  }

  // ----- the conditions of each handler -----

  /** `HandleGetStockPositions`: open lots (quantity > 0) whose ticker
      matches the search. */
  function StockWhere(search: string): StockPos -> bool
  {
    (p: StockPos) => p.quantity > 0.0 && TickerLike(p.ticker, search)
  }

  function StockInRange(from: string, to: string): StockPos -> bool
  {
    (p: StockPos) => IsDateInRange(p.openDate, from, to)
  }

  function OpenDateKey(p: StockPos): string { p.openDate }

  /** `type = ?` only when a type is given. */
  predicate TypeMatches(rowType: string, optionType: string)
  {
    optionType == "" || rowType == optionType
  }

  /** `HandleGetOptionPositions`: open options matching the search and the
      type filter. */
  function OptionWhere(search: string, optionType: string): OptionPos -> bool
  {
    (p: OptionPos) => p.quantity > 0.0 && TickerLike(p.ticker, search) && TypeMatches(p.optionType, optionType)
  }

  function OptionInRange(from: string, to: string): OptionPos -> bool
  {
    (p: OptionPos) => IsDateInRange(p.purchaseDate, from, to)
  }

  function PurchaseDateKey(p: OptionPos): string { p.purchaseDate }

  /** `HandleGetClosedStocks`: closed stock rows (of any quantity) whose
      ticker matches the search. */
  function ClosedStockWhere(search: string): ClosedStock -> bool
  {
    (c: ClosedStock) => TickerLike(c.ticker, search)
  }

  function ClosedStockInRange(from: string, to: string): ClosedStock -> bool
  {
    (c: ClosedStock) => IsDateInRange(c.closeDate, from, to)
  }

  function StockCloseDateKey(c: ClosedStock): string { c.closeDate }

  /** `HandleGetClosedOptions`: closed option rows matching the search and
      the type filter. */
  function ClosedOptionWhere(search: string, optionType: string): ClosedOption -> bool
  {
    (c: ClosedOption) => TickerLike(c.ticker, search) && TypeMatches(c.optionType, optionType)
  }

  function ClosedOptionInRange(from: string, to: string): ClosedOption -> bool
  {
    (c: ClosedOption) => IsDateInRange(c.closeDate, from, to)
  }

  function OptionCloseDateKey(c: ClosedOption): string { c.closeDate }

  /** A type filter in `HandlePositionsFilter` or `HandleHistoryFilter`
      hides every stock row and leaves only options of exactly that type. */
  lemma TypeFilterHidesStocks(out: seq<ClosedOption>, table: seq<ClosedOption>, search: string,
                              optionType: string, from: string, to: string)
    requires optionType != ""
    requires Listing(out, table, ClosedOptionWhere(search, optionType), ClosedOptionInRange(from, to), OptionCloseDateKey)
    ensures forall c :: c in out <==> c in table && c.optionType == optionType &&
                                      TickerLike(c.ticker, search) && IsDateInRange(c.closeDate, from, to)
  {
    ListingMembers(out, table, ClosedOptionWhere(search, optionType), ClosedOptionInRange(from, to), OptionCloseDateKey);
  }

  /** Every listed row passes the date filter, and a row with an unreadable
      date always does. */
  lemma UnreadableDatesListed(out: seq<StockPos>, table: seq<StockPos>, search: string, from: string, to: string)
    requires Listing(out, table, StockWhere(search), StockInRange(from, to), OpenDateKey)
    ensures forall p :: (p in table && p.quantity > 0.0 && TickerLike(p.ticker, search) &&
                         ParseDateToTime(p.openDate).None?) ==> p in out
  {
    ListingMembers(out, table, StockWhere(search), StockInRange(from, to), OpenDateKey);
  }
}
