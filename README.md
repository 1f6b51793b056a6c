# DataTrader position ledger in Dafny

This project models the position-accounting core of DataTrader, a small
trading-journal web application written in Go. One user's ledger has four
tables:

- open stock lots (`stock_positions`);
- open option positions (`option_positions`);
- closed stock rows (`closed_stocks`);
- closed option rows (`closed_options`).

The HTTP handlers change these tables. They add positions, close them (for
options: expired, assigned, called away or closed), edit and delete rows, and
replay a brokerage CSV export. On the read side sit the portfolio statistics,
the ROR and P/L-percent formulas, the date-range filters of the list pages,
the CSV tokenizer and the brokerage-row classifier.

Layout, one module per concern:

| file | module | models |
|---|---|---|
| `seqs.dfy`, `text.dfy`, `decimal.dfy`, `totals.dfy` | Seqs, Text, Decimal, Totals | helpers: Option/Result, filters, trimming and case mapping, decimal parsing, sums |
| `types.dfy` | Types | `types/types.go`: the record types, trade codes and option types, ROR and P/L percent |
| `dates.dfy` | Dates | `handlers/utils.go`: the five date layouts of `ParseDateToTime`, formatting, `IsDateInRange` |
| `tokenizer.dfy` | Tokenizer | `utils/paser.go`: the CSV state machine, as a loop and as a step function |
| `brokerage.dfy` | Brokerage | `utils/csv_Importer.go`: currency cleaning, the description pattern, row classification |
| `tables.dfy` | Tables | the ledger value `Db`, id counters (AUTOINCREMENT), lookups, the ledger invariant |
| `positions.dfy` | Positions | the ledger changes of `handlers/positions.go`, as functions of the ledger |
| `history.dfy` | History | the edits and deletes of `handlers/history.go` |
| `import.dfy` | CsvImport | the replay loops of `handlers/import.go` |
| `listings.dfy` | Listings | what the list handlers return: query result, then date filter |
| `stats.dfy` | Stats | `HandleStats` in `handlers/home.go` |
| `store.dfy` | Store | class `Ledger`: the four tables as fields, with one method per handler |

`Store.Ledger` holds the tables as `seq` fields plus one id counter per table.
Each handler method updates those fields in place and is proved equal to a
ledger function in Positions, History or CsvImport. The properties are proved
about those functions:

- weighted averages;
- proportional collateral splits;
- clamping;
- conservation of shares, contracts and collateral;
- P/L sign rules;
- preservation of the ledger invariant `Tables.LedgerOk`.

`LedgerOk` says:

- ids are unique and below the table's counter;
- there is at most one lot per ticker;
- every open lot and open option has a positive quantity;
- every closed stock row's P/L equals (sell − cost) × quantity.

Money and quantities are `real`. A division carries a `requires` that its
divisor is non-zero.

Behaviour of the code worth knowing:

- **Stock closes clamp; option closes reject.** `HandleCloseStockPosition`
  closes the whole lot when the requested quantity is ≤ 0 or larger than the
  lot (handlers/positions.go:770-775). `HandleCloseOptionPosition` answers
  such a quantity with an error and changes nothing
  (handlers/positions.go:874-877).
- **Import quantities come from the row.** Every imported trade takes its
  quantity from column 6 of its row (utils/csv_Importer.go:31). A row whose
  quantity is not positive is dropped while classifying
  (utils/csv_Importer.go:138-163).
- **Only replayed trades are counted.** Rows with fewer than nine fields, an
  empty ticker or an unknown code are dropped without a count
  (utils/csv_Importer.go:126-133). Every stock trade counts, even a Sell that
  finds no lot (handlers/import.go:112). An option trade counts only when it
  opens a position or closes a matched one (handlers/import.go:127, 189).
- **The stock edit can break one lot per ticker.** The edit handler can
  leave two lots with one ticker (`Positions.UpdateStockCanSplitTicker`). So
  it keeps only `Tables.EditableOk`, not `Tables.LedgerOk`.
- **The option edit resets collateral.** Editing an open option writes a
  collateral of 0 (handlers/positions.go:1197-1204). The collateral is then
  no longer proportional to the quantity
  (`Positions.UpdateOptionDropsCollateral`).

## Model

| member | source | states |
|---|---|---|
| Types.StockRor | types/types.go:103-105 | the stock ROR times the per-share cost basis is the P/L |
| Types.OptionRor | types/types.go:106-115 | P/L over premium for Call/Put, P/L over collateral for CC/CSP, 0 for any other type |
| Types.OptionRorPercent | types/types.go:116-118 | 100 times the option ROR, by type |
| Types.StockPlPercent | types/types.go:119-121 | the percentage times cost × quantity is 100 × P/L |
| Types.OptionPlPercent | types/types.go:122-124 | the percentage times premium + collateral is 100 × P/L |
| Types.StockPlPercentIsPriceReturn | types/types.go:119-121 | on a consistent closed row the P/L percent is the price return 100 × (sell − cost) / cost |
| Types.StockRorScalesWithQuantity | types/types.go:103-105 | the ROR uses the per-share cost, so it is `quantity` times the P/L fraction |
| Dates.ParseDateToTime | handlers/utils.go:37-59 | a parsed date is a valid calendar date (month 1-12, day within the month, leap years) |
| Dates.ParseFormatMDYYYY | handlers/utils.go:22-59 | a date written as M/D/YYYY parses back to the same date |
| Dates.ParseFormatMMDDYY | handlers/utils.go:37-59 | a date written as MM/DD/YY parses back with the two-digit year expanded |
| Dates.MMDDYYNotLongYear | handlers/utils.go:39-45 | the two four-digit-year layouts reject an MM/DD/YY text |
| Dates.MMDDYYShortYear | handlers/utils.go:50-53 | the MM/DD/YY layout reads back an MM/DD/YY text |
| Dates.IsoParsedAsIso | handlers/utils.go:37-49 | a YYYY-MM-DD text is read by the ISO layout, because both slash layouts reject it |
| Dates.SlashLayoutRejects | handlers/utils.go:39-45 | a text starting with three digits never matches a month-first layout |
| Dates.FormatDate | handlers/utils.go:8-19 | a YYYY-MM-DD text becomes an MM/DD/YY text (eight characters, slashes at 2 and 5); any other text is returned unchanged |
| Dates.FormatDateKeepsDay | handlers/utils.go:8-19 | the MM/DD/YY text of an ISO date parses back to the same month and day, with the year cut to two digits and expanded as `time.Parse` does |
| Dates.ConvertFilterDate | handlers/utils.go:22-34 | a text that is not YYYY-MM-DD (the empty text included) is returned unchanged |
| Dates.ConvertFilterDateKeepsDay | handlers/utils.go:22-34 | the converted filter date denotes the same day as the original |
| Dates.ConvertedRangeAgrees | handlers/utils.go:22-83 | filtering with converted bounds keeps exactly the rows filtering with the original bounds keeps |
| Dates.NormalizeDate | handlers/utils.go:86-98 | unparseable text (and "") is unchanged; otherwise the result has the MM/DD/YY shape |
| Dates.NormalizeDateIdempotent | handlers/utils.go:86-98 | normalising twice equals normalising once |
| Dates.NormalizeDateKeepsDay | handlers/utils.go:86-98 | the normalised text parses to the same month and day, with the year reduced to two digits and expanded |
| Dates.IsDateInRange | handlers/utils.go:62-83 | an unparseable date is always in range; otherwise it is in range iff it is not before a parsed `from` and not after a parsed `to` (inclusive bounds, an empty or unparseable bound imposes nothing) |
| Tokenizer.Parse | utils/paser.go:17-123 | the index loop with its quote flags computes the character-by-character specification `ParseSpec`; empty input gives no rows |
| Tokenizer.StepEscapedQuote | utils/paser.go:34-36 | inside quotes, `""` adds one `"` and skips both characters |
| Tokenizer.StepQuote | utils/paser.go:37-43 | any other `"` toggles the quote state and marks the field quoted when entering quotes |
| Tokenizer.StepComma | utils/paser.go:45-58 | outside quotes, `,` ends the field (trimmed unless it was quoted) |
| Tokenizer.StepLineEnd | utils/paser.go:60-80 | outside quotes, `\n` or a lone `\r` ends the field and the row |
| Tokenizer.StepCrBeforeLf | utils/paser.go:82-86 | outside quotes, `\r` before `\n` is skipped, so `\r\n` is one row break |
| Tokenizer.StepChar | utils/paser.go:46-48 | every other character, and `,`, `\n`, `\r` inside quotes, is appended to the field |
| Tokenizer.ParseHasNoBlankRows | utils/paser.go:75-78 | no emitted row is the single empty field |
| Tokenizer.RunFromKeepsRows | utils/paser.go:99-101 | every step, the final flush included, keeps only rows that are not blank |
| Tokenizer.ParseRenderTable | utils/paser.go:17-123 | any table of cells written out (plain or quoted cells, `\n`, `\r\n` or `\r` breaks, with or without a final break) parses back to its cell values, one field per unquoted separator plus one, with blank rows dropped |
| Brokerage.PlainAmountKept | utils/csv_Importer.go:19-27 | a plain amount passes the currency cleaning unchanged |
| Brokerage.ParenthesesNegate | utils/csv_Importer.go:23-26 | "(x)" is read as −x |
| Brokerage.CleanWrapped | utils/csv_Importer.go:23-25 | the parentheses are rewritten into a leading minus |
| Brokerage.CleanDollar | utils/csv_Importer.go:20-22 | the `$` signs are removed |
| Brokerage.DollarIgnored | utils/csv_Importer.go:21 | "$x" is worth x |
| Brokerage.MatchDescription | utils/csv_Importer.go:75-76 | a match yields an upper-case ticker prefix, an expiry of 8-10 characters, Call or Put, and a strike of digits, commas and dots |
| Brokerage.MatchesWrittenDescription | utils/csv_Importer.go:75-92 | a description "TICKER M/D/YYYY Call $strike" is matched with exactly those parts |
| Brokerage.ApplyDescription | utils/csv_Importer.go:69-103 | the premium is always the price; the type is Call, Put or unchanged; an empty description changes nothing else |
| Brokerage.DescriptionSearch | utils/csv_Importer.go:93-101 | without a match, "call" anywhere (any case) gives Call before "put" is looked at; neither leaves the type unset |
| Brokerage.MakeStockTrade | utils/csv_Importer.go:29-43 | date from column 0, trimmed ticker from column 3, quantity from 6, cleaned price and amount from 7 and 8 |
| Brokerage.MakeOptionTrade | utils/csv_Importer.go:45-67 | the same mapping, with premium = price and a type that is Call, Put or unset (never CSP or CC) |
| Brokerage.StockCodeIsNotOptionCode | utils/csv_Importer.go:134-166 | no trade code is both a stock code and an option code |
| Brokerage.ClassifyRow | utils/csv_Importer.go:126-166 | a row becomes a stock trade iff it has 9 fields, a ticker, a Buy/Sell code and a positive quantity, and an option trade likewise for BTC/BTO/STO/STC |
| Brokerage.ClassifyRowsStep | utils/csv_Importer.go:125-167 | the loop appends each row's trade to its list in file order |
| Brokerage.ClassifiedTradesGood | utils/csv_Importer.go:125-167 | every classified trade has a Buy/Sell or option code and a positive quantity; at most one trade per row |
| Brokerage.AddRowKeepsGood | utils/csv_Importer.go:136-165 | adding one classified row keeps every trade well formed |
| Brokerage.ImportedTradesGood | utils/csv_Importer.go:110-170 | the parse fails iff the tokenizer yields fewer than 2 rows (empty CSV iff none); on success the trades are well formed |
| Brokerage.ParseBrokerageCsv | utils/csv_Importer.go:110-170 | the loop over rows 1.. computes the classification specification |
| Decimal.NegatedFloat | utils/csv_Importer.go:11-17 | a leading minus negates the parsed value |
| Tables.WeightedAverage | handlers/positions.go:787-791 | the blended value times the total quantity is the sum of value × quantity |
| Tables.WeightedAverageBetween | handlers/positions.go:787-791 | with positive quantities the blend lies between the two values |
| Tables.CollateralShare | handlers/positions.go:973 | the closed share times the held contracts is collateral × closed contracts, and all of it on a full close |
| Tables.CollateralShareBounds | handlers/positions.go:973-987 | the closed share lies between 0 and the collateral, so the remainder is never negative |
| Tables.ShrinkLotHeld | handlers/positions.go:815-824 | shrinking or deleting the lot lowers the shares held in that ticker by exactly the closed quantity |
| Tables.ShrinkOptionContracts | handlers/positions.go:985-995 | shrinking or deleting the option lowers the open contracts of that ticker by the closed contracts |
| Tables.ShrinkOptionCollateral | handlers/positions.go:985-995 | and lowers the held collateral by the closed share |
| Tables.EmptyLedgerOk | database.go:56-117 | the empty tables satisfy the ledger invariant |
| Positions.AddSharesLot | handlers/positions.go:64-97 | with a lot: the same lot (id, open date) gets old + added shares at the weighted cost basis, other lots unchanged; without: a new lot at the price and open date |
| Positions.AddSharesTotals | handlers/positions.go:64-97 | adding shares raises the shares held by the quantity and the invested cost by quantity × price |
| Positions.AddSharesKeeps | handlers/positions.go:55-97 | a positive quantity keeps the ledger invariant (the merge divisor is then non-zero) |
| Positions.CoveredCallNeedsShares | handlers/positions.go:110-120 | with fewer than 100 shares held, a covered call reserves nothing |
| Positions.CoveredCallReservesLotCost | handlers/positions.go:104-121 | with at least 100 shares held, a covered call reserves 100 × the cost basis of the ticker's one lot, which holds all its shares |
| Positions.HeldAtLeastLot | handlers/positions.go:111-118 | a lot's quantity never exceeds the shares held in its ticker |
| Positions.OpenOption | handlers/positions.go:98-131 | exactly one row is appended, with price = premium and the opening collateral; the other tables are unchanged |
| Positions.OpenOptionKeeps | handlers/positions.go:98-131 | a positive quantity keeps the ledger invariant |
| Positions.CloseQuantity | handlers/positions.go:754-775 | a requested quantity in (0, current] is used; an empty, non-positive or larger request closes the whole lot |
| Positions.CloseQuantityBounds | handlers/positions.go:769-775 | 0 < closed ≤ available |
| Positions.SaleOf | handlers/positions.go:779-785 | finds the closed row with the same ticker and open date, or proves there is none |
| Positions.BlendConsistent | handlers/positions.go:787-797 | blending keeps P/L = (sell − cost) × quantity on the closed row |
| Positions.RecordSaleTotals | handlers/positions.go:777-813 | the sold shares rise by the closed quantity and the realised P/L by (sell − cost) × closed, whether blended or inserted |
| Positions.RecordSaleKeeps | handlers/positions.go:777-813 | recording the sale keeps the ids and consistent closed rows |
| Positions.CloseStock | handlers/positions.go:725-833 | fails with NotFound iff the id is unknown; the option tables never change |
| Positions.CloseStockConserves | handlers/positions.go:725-833 | held + sold shares of the ticker are conserved, and the realised P/L rises by (sell − cost) × closed |
| Positions.CloseStockShape | handlers/positions.go:777-824 | the lot is shrunk by the closed quantity (deleted when nothing remains), and the sale is recorded by blend or insert |
| Positions.CloseStockKeeps | handlers/positions.go:725-833 | a successful close keeps the ledger invariant |
| Positions.SoldQuantitiesCloseStockDefined | handlers/positions.go:779-791 | on a valid ledger whose closed rows hold no negative quantity, every stock close has a non-zero blend divisor |
| Positions.NegativeSaleBlocksClose | handlers/positions.go:779-791 | a valid ledger with a closed row of quantity −5 makes the next close of 5 shares of that lot divide by 0 |
| Positions.OptionClosePLSign | handlers/positions.go:965-971 | a long close gains iff sold above the premium, a short close iff bought back below it |
| Positions.CallAwayTotals | handlers/positions.go:884-925 | with enough shares: held falls and sold rises by 100 × q, and P/L (sharePrice − lot cost) × shares is realised; otherwise nothing changes |
| Positions.CallAwayKeeps | handlers/positions.go:884-925 | calling shares away keeps the ledger invariant |
| Positions.OutcomeShares | handlers/positions.go:879-963 | only called_away and assigned touch the stock tables |
| Positions.CloseOption | handlers/positions.go:835-1004 | NotFound iff the id is unknown; InvalidQuantity iff the position exists and q ≤ 0 or q > its quantity |
| Positions.ClosedOptionRow | handlers/positions.go:876-978 | the closed row holds q contracts of the same ticker and type with the proportional collateral; expired, called_away and assigned record a sell price of 0, so a short option keeps premium × q and a long one loses it; expired closes on the expiry date, the others on the given date |
| Positions.CloseOptionConserves | handlers/positions.go:973-995 | one closed row is appended; the open + closed contracts and the held + released collateral of the ticker are conserved |
| Positions.CloseOptionEffects | handlers/positions.go:879-978 | the realised option P/L rises by the close P/L at the outcome's sell price; the stock tables are those the outcome leaves |
| Positions.AssignedAddsShares | handlers/positions.go:927-960 | assignment adds 100 × q shares at the strike, by merge or new lot, and records no sale |
| Positions.CloseOptionShape | handlers/positions.go:879-995 | the stock side, the appended closed row and the shrunk option together make the new ledger |
| Positions.CloseOptionKeeps | handlers/positions.go:835-1004 | a successful close keeps the ledger invariant |
| Positions.LedgerOkCloseOptionDefined | handlers/positions.go:927-948 | on a valid ledger every option close is defined: an assignment merges into a positive lot |
| Positions.OutcomeSharesKeeps | handlers/positions.go:879-963 | every outcome's stock change keeps the invariant |
| Positions.CalledAwayKeeps | handlers/positions.go:884-925 | called away keeps the invariant |
| Positions.AssignedKeeps | handlers/positions.go:927-960 | assigned keeps the invariant |
| Positions.CloseOptionKeepsAfterShares | handlers/positions.go:965-995 | after the stock side, the option close keeps the invariant |
| Positions.UpdateStock | handlers/positions.go:1146-1177 | fails (the UNIQUE(ticker, open date) constraint) iff another lot has the new ticker and open date; otherwise only the stock table changes, in size kept |
| Positions.UpdateStockKeeps | handlers/positions.go:1146-1177 | the edit keeps `EditableOk`: unique ids, one lot per (ticker, open date), positive option quantities and consistent closed stock rows |
| Positions.UpdateStockCanSplitTicker | handlers/positions.go:1159-1168 | witness: a valid ledger in which an edit leaves two lots of one ticker |
| Positions.UpdateOption | handlers/positions.go:1179-1214 | only the row with that id changes; ids and quantities are kept |
| Positions.UpdateOptionDropsCollateral | handlers/positions.go:1197-1205 | the edited row's collateral is taken out of the ticker's held collateral |
| Positions.UpdateOptionKeeps | handlers/positions.go:1179-1214 | the edit keeps the ledger invariant |
| Positions.DeleteStock | handlers/positions.go:1223-1240 | only the stock table shrinks |
| Positions.DeleteOption | handlers/positions.go:1242-1259 | only the option table shrinks |
| Positions.DeleteStockKeeps | handlers/positions.go:1232 | exactly the lot with that id is removed; the invariant holds |
| Positions.DeleteOptionKeeps | handlers/positions.go:1251 | exactly the option with that id is removed; the invariant holds |
| History.EditClosedStock | handlers/history.go:206-241 | only the row with that id changes; an unknown id changes nothing |
| History.EditClosedStockRow | handlers/history.go:219-232 | the row holds the submitted values with P/L (sell − cost) × quantity, and the realised total moves by new − old P/L |
| History.EditClosedStockKeeps | handlers/history.go:206-241 | the edit keeps the ledger invariant |
| History.DeleteClosedStock | handlers/history.go:243-260 | only the closed stock table shrinks |
| History.DeleteClosedStockKeeps | handlers/history.go:252 | exactly the row with that id is removed, its P/L leaves the total, and the invariant holds |
| History.EditedOption | handlers/history.go:366-390 | the edit keeps the row's id and quantity |
| History.EditClosedOption | handlers/history.go:353-399 | only the row with that id changes, ids and quantities kept; an unknown id changes nothing |
| History.EditedOptionPLPerContract | handlers/history.go:366-390 | the edit's P/L is the close P/L of one contract of the capitalised type |
| History.EditedOptionLosesRor | handlers/history.go:366-390 | a row edited through the form has a lower-case type, so its ROR is 0 |
| History.EditClosedOptionRealised | handlers/history.go:353-399 | the realised option P/L moves by the edited minus the previous P/L of the row |
| History.EditClosedOptionKeeps | handlers/history.go:353-399 | the edit keeps the invariant |
| History.DeleteClosedOption | handlers/history.go:401-418 | only the closed option table shrinks |
| History.DeleteClosedOptionKeeps | handlers/history.go:410 | exactly the row with that id is removed, its P/L leaves the total, and the invariant holds |
| CsvImport.ReplayStock | handlers/import.go:65-111 | only the stock tables change; other codes and a sell without a lot change nothing |
| CsvImport.SellQuantityIsMin | handlers/import.go:88-96 | a sell takes the smaller of the lot and the quantity sold, and leaves held − sold or nothing |
| CsvImport.ReplayStocks | handlers/import.go:63-113 | the stock trades are applied in file order, leaving the option tables alone |
| CsvImport.ReplayStockKeeps | handlers/import.go:65-111 | a well-formed trade keeps the ledger invariant |
| CsvImport.ReplayStocksKeeps | handlers/import.go:63-113 | the whole stock loop keeps the invariant |
| CsvImport.FullSellShape | handlers/import.go:89-95 | a full sell inserts a closed row dated the trade date twice, for the held quantity at the lot's cost, and deletes the lot |
| CsvImport.PartialSellShape | handlers/import.go:96-101 | a smaller sell only lowers the lot's quantity |
| CsvImport.FullSellConserves | handlers/import.go:89-95 | held falls and sold rises by the held quantity; P/L (price − cost) × held is realised |
| CsvImport.PartialSellRecordsNothing | handlers/import.go:96-101 | the partial sell lowers held shares by the trade quantity, keeps the cost basis and records no closed row |
| CsvImport.ImportedBuyIsAdd | handlers/import.go:76-86 | an imported buy adds its quantity and cost like a manual add, recording nothing |
| CsvImport.OldestMatch | handlers/import.go:137-144 | the candidate matches ticker, strike, expiry and type and has the smallest purchase date text of all matches; none iff no position matches |
| CsvImport.OlderThanAll | handlers/import.go:141 | the ordering used to pick the oldest match, extended to a new candidate |
| CsvImport.ClosingMatch | handlers/import.go:137-146 | the match is an index of an open option |
| CsvImport.TradeClosedRow | handlers/import.go:168-174 | the closed row holds q contracts, the position's premium, type and purchase date, the proportional collateral and the trade P/L |
| CsvImport.TradeClosePLAgrees | handlers/import.go:159-165 | STC of a long option and BTC of a short one score as the close form does; an STC gains iff the price beats the premium, a BTC iff it stays below |
| CsvImport.CloseTradeQuantity | handlers/import.go:148-151 | min(requested, held) |
| CsvImport.ReplayOption | handlers/import.go:117-190 | the stock tables never change; counted iff BTO/STO, or STC/BTC with a match; an uncounted trade changes nothing |
| CsvImport.ReplayOptions | handlers/import.go:115-192 | the option trades in file order; the count never exceeds the trades |
| CsvImport.OpensCounted | handlers/import.go:120-128 | every BTO/STO is counted |
| CsvImport.OptionCloseConserves | handlers/import.go:146-190 | one closed row is appended; open + closed contracts and held + released collateral are conserved; the P/L rises by the trade P/L |
| CsvImport.CloseMatchShape | handlers/import.go:146-187 | the matched close inserts the row and shrinks the position by the clamped quantity and the collateral share |
| CsvImport.ReplayOptionKeeps | handlers/import.go:117-190 | a well-formed option trade keeps the invariant (imported opens get collateral 0) |
| CsvImport.ReplayOptionsKeeps | handlers/import.go:115-192 | the whole option loop keeps the invariant |
| CsvImport.ImportedShortPutScoredLong | handlers/import.go:159-165 | an imported BTC is scored short whatever its type, so the close handler scores a Put the other way |
| CsvImport.ReplayAll | handlers/import.go:60-192 | stocks first, then options; every stock trade is counted, options at most once each |
| CsvImport.ImportCsv | handlers/import.go:40-192 | fails iff the tokenizer yields fewer than 2 rows; the counts never exceed the data rows |
| CsvImport.ImportKeeps | handlers/import.go:40-192 | from a valid ledger every import is defined and keeps the invariant |
| Listings.FilterPermutation | handlers/positions.go:168-176 | keeping rows commutes with reordering |
| Listings.FilterDescending | handlers/positions.go:157-176 | keeping rows keeps the ORDER BY order |
| Listings.KeepFromQuery | handlers/positions.go:159-176 | keeping the in-range rows of a query result yields the listing |
| Listings.ListingMembers | handlers/positions.go:149-176 | a listing holds exactly the table rows matching both the query and the date range |
| Listings.TypeFilterHidesStocks | handlers/history.go:74-133 | with a type filter the history lists only option rows of exactly that type, matching search and range |
| Listings.UnreadableDatesListed | handlers/positions.go:173 | an open lot with an unreadable date always appears when it matches the search |
| Stats.Gains | handlers/home.go:54-56 | the sum of the positive P/Ls is never negative |
| Stats.Losses | handlers/home.go:59-61 | the sum of the negative P/Ls is never positive |
| Stats.GainsPlusLosses | handlers/home.go:32-61 | the total P/L is gains plus losses (break-evens count for neither) |
| Stats.AllGains | handlers/home.go:38-39 | the winning count equals the row count iff every row has positive P/L |
| Stats.WinRate | handlers/home.go:45-51 | between 0 and 100, 0 with nothing closed, 100 iff every closed row wins |
| Stats.WinRateIsShare | handlers/home.go:48-51 | the win rate is the winning share of all closed rows, in percent |
| Stats.ProfitFactor | handlers/home.go:63-66 | never negative, 0 when there are no losses |
| Stats.ProfitFactorIsRatio | handlers/home.go:63-66 | with losses the factor times the loss amount is the gains |
| Stats.ComputeStats | handlers/home.go:12-84 | the counts are the table sizes, total P/L is both tables' P/L and gains + losses, and the win rate and profit factor are as above |
| Stats.PerfectWinRate | handlers/home.go:38-51 | 100% iff something is closed and every closed row in either table has positive P/L |
| Stats.NoLossesNoFactor | handlers/home.go:58-66 | with no losing row the profit factor is 0 and the gains are the whole P/L |
| Store.KeepRows | handlers/positions.go:167-176 | the append loop keeps exactly the rows passing the date test, in order |
| Store.Ledger.constructor | database.go:56-117 | a new user's ledger has four empty tables and is valid |
| Store.Ledger.AddPosition | handlers/positions.go:41-136 | a stock merges into the ticker's lot, an option is opened with its collateral, other types change nothing; a positive quantity keeps the invariant |
| Store.Ledger.OpenOptionRow | handlers/positions.go:104-131 | the collateral switch and insert compute `OpenOption` |
| Store.Ledger.BuyShares | handlers/positions.go:64-97 | lookup then update or insert computes `AddShares` |
| Store.Ledger.RecordSaleRow | handlers/positions.go:779-813 | lookup then blend or insert computes `RecordSale` |
| Store.Ledger.CallAwayShares | handlers/positions.go:887-925 | the called-away branch computes `CallAway` |
| Store.Ledger.CloseStockPosition | handlers/positions.go:725-833 | unknown id: NotFound and no change; otherwise the ledger becomes `CloseStock`; the invariant holds |
| Store.Ledger.CloseOptionPosition | handlers/positions.go:835-1004 | NotFound or InvalidQuantity with no change, else the ledger becomes `CloseOption`; the invariant holds |
| Store.Ledger.CloseContracts | handlers/positions.go:879-1000 | the outcome switch, P/L, insert and shrink compute `CloseOption` |
| Store.Ledger.UpdateStockPosition | handlers/positions.go:1146-1177 | on a constraint clash an error and no change, else `UpdateStock`; `EditableOk` holds |
| Store.Ledger.UpdateOptionPosition | handlers/positions.go:1179-1214 | the ledger becomes `UpdateOption` and stays valid |
| Store.Ledger.DeleteStockPosition | handlers/positions.go:1223-1240 | the ledger becomes `DeleteStock` and stays valid |
| Store.Ledger.DeleteOptionPosition | handlers/positions.go:1242-1259 | the ledger becomes `DeleteOption` and stays valid |
| Store.Ledger.UpdateClosedStock | handlers/history.go:206-241 | the ledger becomes `EditClosedStock` and stays valid |
| Store.Ledger.DeleteClosedStockRow | handlers/history.go:243-260 | the ledger becomes `DeleteClosedStock` and stays valid |
| Store.Ledger.UpdateClosedOption | handlers/history.go:353-399 | the ledger becomes `EditClosedOption` and stays valid |
| Store.Ledger.DeleteClosedOptionRow | handlers/history.go:401-418 | the ledger becomes `DeleteClosedOption` and stays valid |
| Store.Ledger.ImportStockTrade | handlers/import.go:65-111 | one pass of the stock loop computes `ReplayStock` |
| Store.Ledger.SellFromLot | handlers/import.go:87-102 | the sell branch computes `ReplayStock` |
| Store.Ledger.SellWholeLot | handlers/import.go:89-95 | insert the closed row, then delete the lot |
| Store.Ledger.ImportOptionTrade | handlers/import.go:117-190 | one pass of the option loop computes `ReplayOption` and whether it counted |
| Store.Ledger.CloseFromMatch | handlers/import.go:146-190 | the clamp, insert and shrink compute the matched close |
| Store.Ledger.ImportStockTrades | handlers/import.go:63-113 | the stock loop computes `ReplayStocks` and counts every trade |
| Store.Ledger.ImportOptionTrades | handlers/import.go:115-192 | the option loop computes `ReplayOptions` with its count |
| Store.Ledger.ImportCsv | handlers/import.go:40-192 | a parse error changes nothing; otherwise the ledger and both counts are those of `ImportCsv`; the invariant holds |
| Store.Ledger.StockPositions | handlers/positions.go:138-180 | the open lots matching the upper-cased search and the date range, in open-date order |
| Store.Ledger.OptionPositions | handlers/positions.go:182-229 | the open options matching search, type and range, in purchase-date order |
| Store.Ledger.PositionsFilter | handlers/positions.go:231-389 | with a type filter no stocks; otherwise both listings |
| Store.Ledger.ClosedStocksList | handlers/history.go:18-60 | the closed stocks matching search and close-date range, in close-date order |
| Store.Ledger.ClosedOptionsList | handlers/history.go:420-467 | the closed options matching search, type and range |
| Store.Ledger.HistoryFilter | handlers/history.go:62-137 | with a type filter no closed stocks; otherwise both listings |

## Left out

- Users: every query filters on the user id, so one ledger per user is modelled and the id is dropped.
- Sessions and authentication (`GetOrCreateUserID`, handlers/auth.go, middleware/auth.go): I/O and concurrency.
- HTTP, form parsing, HTML and modal rendering, and the URL id: the id is an `int` parameter, and an id that cannot name a row behaves like an unknown one.
- `time.Now()` defaults: explicit `today` and close-date parameters (`Store.FormDate`).
- SQL error paths (storage failures) are not modelled. The UNIQUE(user, ticker, open date) clash of the stock edit is the only database error modelled.
- SQL `LIKE` and `ORDER BY`: the query result of a list handler is a `requires` (the matching rows, each once, in descending date-text order). The order of ties is SQLite's, and `%`/`_` in a search are matched literally.
- CsvImport.OldestMatch: among positions with the same purchase date it takes the first in table order. The source's `ORDER BY purchase_date ASC LIMIT 1` (handlers/import.go:141-142) leaves such ties to SQLite.
- IEEE floating point: `real` arithmetic rules out rounding, NaN and infinities. Every division requires a non-zero divisor. For the option close the ledger invariant supplies it (`Positions.LedgerOkCloseOptionDefined`). For the stock close it does not: the invariant leaves closed rows' quantities free (`Positions.NegativeSaleBlocksClose`).
- Store.Ledger.CloseStockPosition: the caller must exclude a closed row whose quantity cancels the sale, where Go divides by 0 and stores NaN or infinity. It can happen once a closed stock row has been edited to a negative quantity. Without such rows the close is always defined (`Positions.SoldQuantitiesCloseStockDefined`).
- Text.TrimSpace: trims ASCII white space only. Go's `strings.TrimSpace` also trims Unicode spaces such as U+00A0 and U+3000. So a tokenizer field (utils/paser.go:53, 69, 93, 114) or a ticker or description (utils/csv_Importer.go:33, 49, 52) ending in such a space keeps it here.
- Tables.LotOf: when one ticker has two lots, which can only follow a stock edit, the model takes the first in rowid order. The query `WHERE user_id = ? AND ticker = ?` has no ORDER BY, and SQLite may answer it from the UNIQUE(user_id, ticker, open_date) index, whose first lot is the one with the smallest open-date text. The same choice affects the merge of a buy, the covered-call collateral and the import's sell.
- Text.ToUpper: ASCII letters only; Unicode case mapping is not modelled. Go's `strings.ToUpper` maps every cased letter, both for stored tickers (handlers/positions.go:54, 1159, 1192) and for searches.
- Decimal.ParseFloatOrZero: reads an optional sign, digits and an optional fraction. `strconv.ParseFloat`'s exponents, hexadecimal, `inf` and `nan` are not modelled, and a parse error gives 0 as at the call sites that ignore it.
- Brokerage.MatchDescription: a hand-written matcher for the fixed pattern replaces the `regexp` engine. `\s` is the ASCII space class.
- Dates.ParseDateToTime: hand-written versions of `time.Parse` for the five layouts. Times of day, time zones and years outside 0-9999 are not modelled.
- `parseStrikePrice` and `parseFloat64` (utils/paser.go:125-144) are not called by the core and are not modelled. Neither is `ReadFile`.
- HandleStats has no method: the statistics read the tables and change nothing, so `Stats.ComputeStats` of the ledger is the model.
- `HandleEditStockPosition`, `HandleEditOptionPosition`, `HandleClosePosition`, `HandleCloseOptionModal` and `HandleOutcomeFields` only render forms. The UI offers assigned only for CSP and called away only for CC. The close handler does not check this, and neither does the model.
- Store.Ledger.AddPosition: the invariant is promised only for a positive quantity, because the handler does not validate the quantity and the weighted-merge divisor can be 0.
- Store.Ledger.UpdateStockPosition: keeps only `EditableOk`, not one lot per ticker or positive quantities, because the edit handler can break both.
