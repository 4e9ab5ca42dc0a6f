# Backtesting engine model

A Dafny model of the backtesting core of the Backtesting-System repository. It covers three parts:

- **The portfolio ledger** (`backtesting/State.py`):
  - holdings merged by name with a reweighted average cost;
  - cash debited and credited with a fixed fee;
  - share sizing, buys and sells under the maximum/minimum allocation guards;
  - option purchases and closes, and liquidation of expired contracts;
  - valuation, the price resolver `get_stock_price_static`, the OCC-style option symbol and its third-Friday expiry;
  - the `Time`/`Resolution` clock, and `BacktestingState`'s history, HODL benchmark and expiry sweep.
- **The condition predicates** (`forwardtesting/Conditions.py`):
  - the up/down-n-percent scans that fill a "holdings to sell" set;
  - the rolling window of the low/high-for-period conditions;
  - the buy-to-open count.
- **The tick driver** (`backtesting/Backtesting.py`): date validation, the tick count, and the loop that values, buys, sells and advances the clock.

Modules, one per file:

| file | module | models |
|---|---|---|
| common.dfy | `Common` | `Result`, `Option`, the failure kinds (a Python exception or a `log_error` exit) |
| numeric.dfy | `Numeric` | `round(x)` (half to even) and `round(x, 2)` |
| calendar.dfy | `Calendar` | proleptic Gregorian dates, ordinals, weekdays, `timedelta` |
| option_symbols.dfy | `OptionSymbols` | strike bands, `_option_expiration`, the option symbol and the expiry parse of `Holdings.__init__` |
| prices.dfy | `Prices` | price series as rows of (day, column ↦ price) and `get_stock_price_static` |
| clock.dfy | `Clock` | `Resolution`, `Time` |
| holdings.dfy | `Holdings` | `Holdings` as a value; merging, subtracting and valuing lists of them |
| conditions.dfy | `Conditions` | `Condition` and its subclasses as one class with a `Kind` |
| strategy.dfy | `Strategies` | `HoldingsStrategy` and its `get_stock_price` |
| portfolio.dfy | `Ledger` | `Portfolio`, with each trade's outcome as a function on `Books` (cash, holdings, series) |
| backtesting_state.dfy | `Backtesting` | `BacktestingState`, the HODL benchmark, the expiry sweep |
| driver.dfy | `Driver` | `check_backtest_preconditions`, `backtest_buy/sell`, `backtest_loop_helper`, `backtest_loop` |

Prices are exact reals and dates are ordinals. Failures that end the Python program are `Fail` results:
- an exception such as `KeyError` or `ZeroDivisionError`;
- a `log_error`, which exits.

The state-changing methods are proved against functions of the old state. For example, `Portfolio.Buy` settles exactly as `BuyShares` or `BuyOptionsOutcome` says. Lemmas state what the source promises about those functions.

## Model

| member | source | states |
|---|---|---|
| Numeric.RoundHalfEvenNearest | backtesting/State.py:736 | `round(x)` is within 1/2 of x, an exact half goes to the even neighbour, and a whole number is left unchanged |
| Numeric.RoundCentsNearest | backtesting/State.py:429 | `round(x, 2)` is within half a cent of x and is a whole number of cents |
| Numeric.RoundCentsIdempotent | backtesting/State.py:429 | rounding a price that is already rounded to cents changes nothing |
| Calendar.DaysInMonth | backtesting/State.py:725 | a month has 28 to 31 days, 29 exactly for February of a leap year |
| Calendar.Weekday | backtesting/State.py:725 | the weekday of a date is in 0..6 (Monday = 0, as `calendar.monthrange` counts) |
| Calendar.WeekdayAfter | backtesting/State.py:725 | n days later the weekday has moved on by n modulo 7 (Sunday wraps to Monday) |
| Calendar.FirstOfMonth | backtesting/State.py:722 | the first of the month is day 1 of the same month, `day - 1` days earlier |
| Calendar.AddDays | backtesting/State.py:744 | `date + timedelta(n)` is a valid date exactly n days later |
| OptionSymbols.NatToString | backtesting/State.py:746 | `str(int(n))` is a nonempty digit string whose value is n |
| OptionSymbols.PadZeros | backtesting/State.py:747-748 | the padding loop prefixes exactly enough zeros to reach the width and keeps the text |
| OptionSymbols.LeadingZerosKeepValue | backtesting/State.py:747-748 | leading zeros do not change the digits' value |
| OptionSymbols.StrikeFieldValue | backtesting/State.py:746-749 | a strike below 100000 gives an 8-digit field whose value is the strike in thousandths |
| OptionSymbols.Strike | backtesting/State.py:734-740 | the strike is a multiple of its band (1, 5, 10) within half a band of price + band × strikes_above (negated for puts) |
| OptionSymbols.RoundToBand | backtesting/State.py:738-740 | `w * round(x / w)` is a multiple of w within w/2 of x |
| OptionSymbols.OptionExpiration | backtesting/State.py:720-727 | `_option_expiration` is the third Friday of the date's own month |
| OptionSymbols.TargetExpiration | backtesting/State.py:742-744 | this month's third Friday is kept when it is 14 or more days ahead; otherwise the expiry falls in the next month |
| OptionSymbols.FourWeeksAfterThirdFriday | backtesting/State.py:744 | a third Friday plus 28 days always falls in the next month |
| OptionSymbols.TwoDigits | backtesting/State.py:745 | the two-digit year, month and day fields read back as their numbers |
| OptionSymbols.DateField | backtesting/State.py:745 | the YYMMDD field is six digits that read back as year − 2000, month and day |
| OptionSymbols.OptionSymbol | backtesting/State.py:729-750 | a symbol is built exactly when the expiry year is in 2000..2099 (the `20(\d\d)` match succeeds) |
| OptionSymbols.LeadingNonDigits | backtesting/State.py:176 | `\D+` takes the longest digit-free prefix and stops at the first digit |
| OptionSymbols.ParseExpiration | backtesting/State.py:176-177 | a parsed expiry has a year in 2000..2099 and two-digit month and day |
| OptionSymbols.SymbolExpirationParses | backtesting/State.py:176-177 | the expiry regex of `Holdings.__init__` reads back the Friday encoded in any symbol built for it |
| OptionSymbols.SymbolExpirationRoundTrip | backtesting/State.py:742-750 | the expiry parsed from a built option symbol is the target third Friday it was built for |
| Prices.FindRow | backtesting/State.py:429 | the row lookup finds the first row of the date, or reports that none exists (the same first-match search as `Holdings.IndexOf`) |
| Prices.FirstAtOrAfter | backtesting/State.py:448-454 | the interpolation scan stops at the first row not before the date |
| Prices.Interpolate | backtesting/State.py:442-467 | the estimate from the first row on or after the date, averaged with the row before it (that row alone when it is the first), rounded to cents; with no row on or after the date it fails |
| Prices.Resolve | backtesting/State.py:419-472 | a price on the exact date is returned rounded to cents; an empty series has no price |
| Prices.ResolveFrom | backtesting/State.py:425-441 | one turn of the retry loop: the price on current − back if the frame has it, else the last row's price once the frame has ended, else the next earlier day up to five back, else interpolation; every price it returns is rounded to cents, and an empty frame fails |
| Prices.LookupRow | backtesting/State.py:429 | in a chronological series the lookup of a row's own date returns that row's price |
| Prices.ResolveAfterEnd | backtesting/State.py:438-439 | after the series' last date the last row's price is returned |
| Prices.ResolveLooksBack | backtesting/State.py:425-441 | the first of up to 5 earlier days that has a price is used |
| Prices.ResolveFallsBackToInterpolation | backtesting/State.py:440-472 | with no price on the date nor the 5 days before, the two neighbouring rows are averaged |
| Prices.InterpolationBetweenNeighbours | backtesting/State.py:442-467 | the interpolated price is the cent-rounded mean of the rows on either side of the date, which lies between them |
| Clock.Ticks | backtesting/State.py:945-948 | a resolution's tick count is the number of its labels (2 or 24) |
| Clock.TimeInit | backtesting/State.py:951-954 | `time_init` gives the first label for Daily and fails otherwise |
| Clock.ResolutionForward | backtesting/State.py:957-963 | the static `forward_time` toggles Open/Close for Daily and fails otherwise |
| Clock.Time.constructor | backtesting/State.py:977-979 | a new clock holds its resolution's labels at index 0 |
| Clock.Time.ForwardTime | backtesting/State.py:981-983 | the index moves on by one modulo the resolution |
| Clock.Time.IsEod | backtesting/State.py:991-992 | end of day exactly when the label is the last one |
| Clock.TickAfterSteps | backtesting/State.py:981-983 | stepping a wrapped index equals wrapping the stepped count |
| Holdings.MakeHolding | backtesting/State.py:171-181 | a holding keeps its name, quantity, price, type and purchase date; an option whose name has no expiry cannot be built; an option's expiry is the YYMMDD date its name encodes and other holdings have none |
| Holdings.UnderlyingName | backtesting/State.py:201-208 | a name without digits is its own underlying; an underlying never contains a digit |
| Holdings.SymbolUnderlying | backtesting/State.py:201-208 | the underlying of a built option symbol is the stock it was built on |
| Holdings.IndexOf | backtesting/State.py:600-601 | `list.index` by name finds the first holding of that name, or none exists |
| Holdings.IndexOfUnique | backtesting/State.py:600-602 | with unique names, a holding's own name finds it |
| Holdings.ReweightedPrice | backtesting/State.py:240-250 | the new average cost times the new quantity is old quantity × old cost + n × price |
| Holdings.AddedAsWritten | backtesting/State.py:594-608 | as written, the add fails exactly on a bad option name or when the merged quantity is 0 (the reweighting divides by it) |
| Holdings.AddToZeroDiffers | backtesting/State.py:246-249 | selling a position down to zero through `add_holdings` divides by zero as written; the corrected add removes it |
| Holdings.Added | backtesting/State.py:594-608 | an unheld name is appended as a new holding; a held one is merged in place exactly as `MergedAt` states; the named quantity grows by n and no other name's changes |
| Holdings.MergedAt | backtesting/State.py:600-606 | merging into the holding at an index: a zero total deletes exactly that entry; otherwise that entry keeps its name, type, expiry and date with quantity + n and the reweighted cost, and every other entry is unchanged |
| Holdings.AddedKeepsNamesUnique | backtesting/State.py:594-608 | adding keeps the holdings' names distinct |
| Holdings.Subtracted | backtesting/State.py:636-649 | subtracting from a name not held fails; a zero result deletes exactly that entry; otherwise only that entry's quantity drops by n and every other entry is unchanged; it succeeds only for a name that makes a valid holding |
| Holdings.SubtractedKeepsNamesUnique | backtesting/State.py:636-649 | subtracting keeps the holdings' names distinct |
| Holdings.RemovalKeepsUnique | backtesting/State.py:645-646 | deleting one holding keeps the names distinct |
| Holdings.WorthAtUnitPrice | backtesting/State.py:548-550 | a holding is worth its quantity times the unit price (× 100 for options) |
| Holdings.HoldingValuePriced | backtesting/State.py:541-550 | a priced holding other than crypto is valued at its worth at the resolved price of its own series |
| Holdings.HoldingsValueSnoc | backtesting/State.py:539-550 | the holdings' value grows by each holding's value in turn |
| Holdings.HoldingValue | backtesting/State.py:541-550 | one holding's value: a holding without a series fails, a crypto holding fails, and otherwise it has a value exactly when its series resolves a price (then quantity × price × 100 for options, by `HoldingValuePriced`) |
| Conditions.Abs | forwardtesting/Conditions.py:89-91 | the sign flip and `abs` give the magnitude |
| Conditions.FlaggedNames | forwardtesting/Conditions.py:81-93 | a scan selects exactly the names of holdings whose price ratio passes the threshold |
| Conditions.UpDownPartition | forwardtesting/Conditions.py:91-127 | with one threshold the up and down conditions select disjoint sets that together cover every holding |
| Conditions.FlaggedNamesStep | forwardtesting/Conditions.py:81-93 | one more holding scanned adds its name exactly when it passes |
| Conditions.Closes | forwardtesting/Conditions.py:204 | the window's Close column, row by row |
| Conditions.SeqMin | forwardtesting/Conditions.py:204 | `min()` is a member no greater than any close |
| Conditions.SeqMax | forwardtesting/Conditions.py:241 | `max()` is a member no less than any close |
| Conditions.LowMeansBelowEveryClose | forwardtesting/Conditions.py:209 | low-for-period holds iff the price is below every close + sd × std |
| Conditions.HighMeansAboveEveryClose | forwardtesting/Conditions.py:242 | high-for-period holds iff the price is above every close + sd × std |
| Conditions.Shifted | forwardtesting/Conditions.py:178-180 | one datapoint drops the oldest row and appends the new one |
| Conditions.ShiftedKeepsLastRows | forwardtesting/Conditions.py:173-180 | after k datapoints the window is its last rows followed by the k new ones |
| Conditions.Condition.constructor | forwardtesting/Conditions.py:14-17 | a new condition has an empty sell set and window |
| Conditions.Condition.DeleteHolding | forwardtesting/Conditions.py:44-48 | `remove` takes out exactly one name, and fails (KeyError) for a name not in the set |
| Conditions.Condition.ClearHoldingsToSell | forwardtesting/Conditions.py:56-60 | the sell set ends empty |
| Conditions.Condition.ScanHoldings | forwardtesting/Conditions.py:76-96 | up/down `is_true` adds exactly the flagged names and answers whether any holding was flagged; a zero purchase price is taken as failing the scan |
| Conditions.Condition.MoreLongThanShort | forwardtesting/Conditions.py:267-280 | true iff the asset has more holdings with quantity ≥ 0 than with quantity < 0, counted over exactly those holdings |
| Conditions.Condition.WarmUpData | forwardtesting/Conditions.py:154-171 | an empty window becomes the series' last week_length rows in order; a full one is left alone |
| Conditions.Condition.AddDatapoint | forwardtesting/Conditions.py:173-184 | the window is shifted by the row and fails when shorter than week_length |
| Conditions.Condition.PeriodExtreme | forwardtesting/Conditions.py:196-216 | after warm-up, low/high-for-period answers the window comparison |
| Conditions.LegsOn | forwardtesting/Conditions.py:272-279 | the legs counted are exactly the indices of holdings on the asset with the given sign, each once, in increasing order |
| Conditions.LegsCoverAsset | forwardtesting/Conditions.py:272-280 | the long and short leg counts add up to the number of holdings on the asset |
| Conditions.OnAsset | forwardtesting/Conditions.py:272-279 | exactly the indices of holdings whose underlying is the asset, in increasing order |
| Strategies.HoldingsStrategy.constructor | backtesting/State.py:268-288 | a new strategy keeps its settings and has no purchase or sale yet |
| Strategies.HoldingsStrategy.AcknowledgeBuy | backtesting/State.py:344-348 | records the last purchase only |
| Strategies.HoldingsStrategy.AcknowledgeSell | backtesting/State.py:350-354 | records the last sale only |
| Strategies.HoldingsStrategy.Price | backtesting/State.py:356-368 | stocks/options try today and up to 2 days back, first found, rounded to cents; crypto reads the intraday Open; other types have no price |
| Strategies.HoldingsStrategy.PriceFrom | backtesting/State.py:360-366 | the retry loop returns the first day from i on that has a price |
| Ledger.Debit | backtesting/State.py:651-655 | a debit removes exactly cost + fee |
| Ledger.Credit | backtesting/State.py:657-661 | a credit adds exactly gain − fee |
| Ledger.RoundTripCostsTwoFees | backtesting/State.py:651-661 | buying and selling the same notional costs exactly two fees |
| Ledger.ValueOf | backtesting/State.py:535-551 | the portfolio value is buying power plus the holdings' value, and fails when a holding has no price |
| Ledger.CryptoBlocksValue | backtesting/State.py:473-474 | a portfolio holding crypto has no value: the crypto branch of the resolver raises |
| Ledger.ValueFailsFromPrefix | backtesting/State.py:540-547 | once a holding cannot be priced the whole valuation fails that way |
| Ledger.FloorShares | backtesting/State.py:690 | `int(d // p)` whole shares cost at most d and one more share would cost more |
| Ledger.Dollars | backtesting/State.py:681-706 | the dollars a float allocation targets: the fraction of the portfolio value or of the buying power; an unknown allocation type, or a portfolio value that cannot be computed, fails |
| Ledger.SharesToBuy | backtesting/State.py:675-717 | an int allocation buys exactly that many units; a float one spends a fraction of value or buying power, floored to whole shares for stocks and exact for crypto; options are refused |
| Ledger.StockOrder | backtesting/State.py:829-831 | the first half of `buy`: an order exists exactly when the strategy has a last price and `shares_to_buy` sizes a quote at it, and it carries that price and that quote |
| Ledger.BuyAllowed | backtesting/State.py:834-838 | the guard of `buy` (and of `buy_options`, lines 791-795): the purchase keeps the asset within its maximum share of the portfolio value, costs less than the buying power and is not empty |
| Ledger.OptionOrder | backtesting/State.py:772-787 | no underlying price fails; an expiry year outside 2000-2099 fails; otherwise an order exists exactly when the fetch gives a series that prices today, and it uses the symbol built from `stock` and the underlying price, that series and its price |
| Ledger.Bought | backtesting/State.py:797-800 | a purchase debits cost + fee, the holdings become exactly the corrected add, and the series is recorded |
| Ledger.BuyShares | backtesting/State.py:816-848 | `buy` trades exactly when the allocation and buying-power guards pass, and then debits and records the holding; otherwise nothing changes |
| Ledger.BuyOptionsOutcome | backtesting/State.py:772-814 | `buy_options`: the order's failures fail it; no order is no purchase; with an order it buys exactly when the portfolio value exists and the same guards pass; a bad option name after the debit keeps only the debit |
| Ledger.SaleQuote | backtesting/State.py:914-921 | stocks sell floor(fraction × held value ÷ price) shares; crypto sells exactly fraction × value; other types are refused |
| Ledger.SharesWithinBudget | backtesting/State.py:915-918 | a stock sale of a fraction of the held value never sells more shares than are held |
| Ledger.SaleWithinPosition | backtesting/State.py:912-918 | the sale sized from `get_current_allocation` fits the position |
| Ledger.Sold | backtesting/State.py:929-932 | a sale credits proceeds − fee and the holdings become exactly the subtraction; an unheld name fails |
| Ledger.SellShares | backtesting/State.py:903-935 | `sell` fails when the quote or the value does; otherwise it trades exactly when the minimum-allocation floor allows it and then credits and subtracts; a refused sale changes nothing |
| Ledger.SellAllowed | backtesting/State.py:926 | the guard of `sell`: the position minus the proceeds stays at or above its minimum share of the portfolio value |
| Ledger.CloseProceedsAsWritten | backtesting/State.py:890 | closing credits contracts × price, without the × 100 |
| Ledger.OptionRoundTripAsWrittenLoses | backtesting/State.py:788-891 | as written, buying then closing one contract at any unchanged price p loses 99 × p besides the two fees (198 at 2.00) |
| Ledger.CloseProceeds | backtesting/State.py:890 | closing credits what buying debits: 100 × contracts × price |
| Ledger.OptionRoundTrip | backtesting/State.py:788-891 | opening and closing at one price costs exactly two fees |
| Ledger.SellOptionOutcome | backtesting/State.py:875-901 | a missing series, holding or price fails; otherwise the holding closes for the signed selling allocation at its resolved price, exactly when that subtraction succeeds |
| Ledger.ExpiryProceeds | backtesting/State.py:506-510 | expiry pays 100 × contracts × price, nothing at 0.01 |
| Ledger.Liquidated | backtesting/State.py:497-515 | a missing series or expiry close fails; otherwise liquidation succeeds exactly when the name parses, and removes the holding and credits its expiry proceeds |
| Ledger.Combine | backtesting/State.py:859-866 | the combined sell set holds only names some condition flagged |
| Ledger.Meet | backtesting/State.py:858-866 | the intersection of all the flagged sets |
| Ledger.CombineIsMeet | backtesting/State.py:858-866 | while the running intersection never empties, combining is the intersection |
| Ledger.CombineStartsOver | backtesting/State.py:861-862 | an empty running intersection restarts from the next set |
| Ledger.CollectHoldingsToSell | backtesting/State.py:857-866 | the loop combines the flagged sets and clears each reporting condition |
| Ledger.FlaggedFor | backtesting/State.py:867-870 | the candidates are exactly the combined names on this stock |
| Ledger.Portfolio.constructor | backtesting/State.py:486-495 | a new portfolio holds its cash as buying power and initial value, no holdings |
| Ledger.Portfolio.DecreaseBuyingPower | backtesting/State.py:651-655 | buying power becomes its debit; nothing else changes |
| Ledger.Portfolio.IncreaseBuyingPower | backtesting/State.py:657-661 | buying power becomes its credit; nothing else changes |
| Ledger.Portfolio.AddHoldings | backtesting/State.py:594-608 | the holdings become the corrected add, or stay put on failure |
| Ledger.Portfolio.SubtractHoldings | backtesting/State.py:636-649 | the holdings become the subtraction; an unheld name fails and changes nothing |
| Ledger.Portfolio.GetPortfolioValue | backtesting/State.py:535-551 | the accumulating loop computes the portfolio value, failing on an unpriced or crypto holding |
| Ledger.Portfolio.IsProfitable | backtesting/State.py:553-557 | profitable iff the value exceeds the initial value |
| Ledger.Portfolio.Contains | backtesting/State.py:559-566 | true iff some holding's underlying is the asset |
| Ledger.Portfolio.GetCurrentAllocation | backtesting/State.py:568-579 | gated on the underlying, summing exact-name matches × price |
| Ledger.Portfolio.Buy | backtesting/State.py:816-848 | the books settle as `BuyShares` or `BuyOptionsOutcome` says |
| Ledger.Portfolio.BuyOptions | backtesting/State.py:772-814 | the books settle as `BuyOptionsOutcome` says |
| Ledger.Portfolio.PayForContracts | backtesting/State.py:797-800 | debit, then the holding and its series, and only the debit if the holding cannot be built |
| Ledger.Portfolio.Sell | backtesting/State.py:903-935 | the books settle as `SellShares` says, or as `SellOption` does for options; for options each reporting condition's set is cleared and the others are kept, otherwise every set is kept |
| Ledger.Portfolio.SellOption | backtesting/State.py:850-901 | the conditions' sets are combined and cleared, and at most one flagged holding on the stock is closed; the underlying price is not needed |
| Ledger.Portfolio.CloseOption | backtesting/State.py:875-901 | the books settle as `SellOptionOutcome` says |
| Ledger.Portfolio.Liquidate | backtesting/State.py:497-515 | the books settle as `Liquidated` says |
| Backtesting.Expired | backtesting/State.py:136-142 | only options expire, once the date is past their expiry |
| Backtesting.Kept | backtesting/State.py:135-144 | the holdings the sweep should keep, never more than there were; `KeptExactly` states which |
| Backtesting.KeptExactly | backtesting/State.py:135-144 | the sweep keeps exactly the holdings that have not expired |
| Backtesting.SweepAsWritten | backtesting/State.py:135-144 | as written, the sweep never touches holdings before the cursor |
| Backtesting.SweepAsWrittenSkipsNeighbour | backtesting/State.py:135-144 | as written, an expired holding right after a liquidated one is skipped |
| Backtesting.Sweep | backtesting/State.py:135-144 | the corrected sweep leaves exactly the unexpired holdings, with names still distinct |
| Backtesting.UnitsFor | backtesting/State.py:94-95 | the units bought are worth the amount at the price |
| Backtesting.HodlUnits | backtesting/State.py:89-95 | each allocation buys its fraction of the initial value at the first tick's price; any unpriced asset fails, and a zero price is taken as failing too |
| Backtesting.HodlValue | backtesting/State.py:124-129 | the benchmark is the sum of units × price over its assets, and it exists exactly when every asset has a price |
| Backtesting.HodlValueStep | backtesting/State.py:125-129 | each entry adds its units × price |
| Backtesting.HodlFailsFromPrefix | backtesting/State.py:125-129 | an unpriced entry fails the whole benchmark |
| Backtesting.AllottedIsTotalShare | backtesting/State.py:94-95 | the amounts set aside total the fraction sum × initial value |
| Backtesting.HodlStartsAllotted | backtesting/State.py:89-95 | at its purchase prices the benchmark is worth what was allotted |
| Backtesting.HodlStartsAtInitialValue | backtesting/State.py:89-95 | the benchmark starts at the fraction sum × initial value |
| Backtesting.BacktestingState.constructor | backtesting/State.py:19-39 | a new state holds the given portfolio, strategy and HODL entries, with empty histories |
| Backtesting.BacktestingState.Create | backtesting/State.py:89-95 | `__init__` with explicit allocations: the HODL entries are exactly `HodlUnits` at the first tick of the start date; a missing price fails and no state is made, and a zero price is taken as failing too |
| Backtesting.BacktestingState.AcknowledgeBuy | backtesting/State.py:41-48 | a buy is logged only when the buying allocation is positive |
| Backtesting.BacktestingState.AcknowledgeSell | backtesting/State.py:50-55 | every sale is logged |
| Backtesting.BacktestingState.GetHodlValue | backtesting/State.py:124-129 | the loop computes the benchmark value |
| Backtesting.BacktestingState.UpdatePortfolioValue | backtesting/State.py:119-144 | one (value, HODL) row is appended and the expired options are swept; a failed valuation appends nothing |
| Backtesting.BacktestingState.SweepExpired | backtesting/State.py:135-144 | the portfolio becomes the corrected sweep |
| Driver.SplitDash | backtesting/Backtesting.py:48-49 | the pieces between dashes contain no dash |
| Driver.SplitDashRoundTrip | backtesting/Backtesting.py:48-49 | joining the pieces gives the text back |
| Driver.PairsAreValid | backtesting/Backtesting.py:50-54 | the flag holds iff every paired piece is digits and positive |
| Driver.ParseAll | backtesting/Backtesting.py:55-56 | `int()` succeeds iff every piece is ASCII digits |
| Driver.MakeDate | backtesting/Backtesting.py:57-58 | `date(...)` succeeds iff three pieces make a representable date |
| Driver.CheckBacktestPreconditions | backtesting/Backtesting.py:46-70 | accepts iff every piece is numeric, pairs are positive, both dates exist and end ≥ start |
| Driver.TickDate | backtesting/Backtesting.py:101-102 | tick e falls on start + e div ticks days |
| Driver.TickDatesMonotone | backtesting/Backtesting.py:101-102 | tick dates never go back |
| Driver.DayOfTick | backtesting/Backtesting.py:101-102 | each day gets `ticks` consecutive epochs |
| Driver.LastTickIsEndDate | backtesting/Backtesting.py:114-122 | the last tick of an 'All' run falls on the end date |
| Driver.Bind | backtesting/Backtesting.py:75 | binding positional arguments succeeds iff their count equals the parameters'; too few reports the first missing parameter; the k-th parameter gets the k-th argument |
| Driver.TradeCallAsWrittenRaises | backtesting/Backtesting.py:75-87 | the three-argument `buy`/`sell` call leaves `time` unbound (TypeError); with the asset name first every parameter is bound |
| Driver.BacktestBuy | backtesting/Backtesting.py:73-77 | a buy is tried on a signal and acknowledged only on success |
| Driver.BacktestSell | backtesting/Backtesting.py:80-89 | an unprofitable must-be-profitable strategy does not sell; otherwise on a signal the books settle as `SellShares` says, or for options as `Portfolio.Sell` does, and only a reported sale is acknowledged |
| Driver.BacktestLoopHelper | backtesting/Backtesting.py:92-96 | buy, then sell: each history grows by at most today's entry |
| Driver.ValueAndTrade | backtesting/Backtesting.py:103-104 | one history row, then the trades |
| Driver.RunTick | backtesting/Backtesting.py:100-107 | one tick keeps the loop's progress: clock index, dated logs in the window |
| Driver.TickStepKeepsWindow | backtesting/Backtesting.py:100-107 | a tick's log entry keeps the logs dated and in order |
| Driver.BacktestLoop | backtesting/Backtesting.py:99-108 | ticks 0..count inclusive each append one row; the result is count div ticks |

## Left out

- HTTP fetch of option history (`get_options_data`, backtesting/State.py:751-770) is the parameter `fetch`, returning an optional series.
- The crypto branch of `get_stock_price_static` (backtesting/State.py:473-474) indexes with `str(date)`, the class, and raises `KeyError`; a crypto holding therefore fails valuation (`Holdings.HoldingValue`, `Ledger.CryptoBlocksValue`). The series recorded for stocks, options and the HODL benchmark are taken to be daily frames without a Symbol column.
- `get_stock_price` returns `None` after three misses and for unknown asset types (`Strategies.HoldingsStrategy.Price`). `buy`, `buy_options` and `sell` then raise on arithmetic with `None`, and the model fails there. `sell_option` only logs the price, so `Ledger.Portfolio.SellOption` does not ask for it.
- `Helper.hasNumbers` and `Helper.log_warn` are not part of this model; they are taken to mean "contains a digit" and "only logs".
- pandas frames are rows of (day ordinal, column ↦ price); `.std()` is the uninterpreted parameter `std`.
- Plotting, logging and `get_portfolio_snapshot` (backtesting/State.py:103-117, backtesting/Backtesting.py:127-156) have no behaviour to verify.
- The allocation-key assertions of `__init__` (backtesting/State.py:21-26) hold by construction: allocations are (name, fraction, series) triples.
- The HODL default branch (backtesting/State.py:74-88) reads the missing `_strategy_list`; only explicit allocations are modelled.
- The HODL price lookup is a parameter `priceAt`; at run time it is `QuoteAt(day, time)`, the resolver at that tick.
- `add_initial_holdings` (backtesting/State.py:146-157, 610-634) and `get_current_allocation_percent` (backtesting/State.py:581-592) are not called by the driver.
- The int-`days` path (backtesting/Backtesting.py:120-121) leaves `date1_obj` unbound; only 'All' is modelled.
- The resolution and `days` checks (backtesting/Backtesting.py:64-69) never fail for the driver's inputs.
- Buying and selling signals are parameters (the source's are stubs returning False).
- `Driver.Representable`: years above 9999 fail, as `datetime.date` does.
- `isdigit()`/`int()` are on ASCII digits only. Python's `int()` also accepts text such as "+5", " 5" and "1_0". `isdigit()` refuses these in the paired pieces, so the two differ only for extra unpaired date pieces, which the model refuses.
- Mutable default arguments (`current_holdings=[]`) are not shared between portfolios.
- Dictionary iteration order: allocations and holdings are sequences in a fixed order.
- `Ledger.Portfolio.Sell`, `Ledger.Portfolio.CloseOption`, `Ledger.Portfolio.Liquidate`: the source credits cash before removing the holding; the model removes first, so a failure (which exits the program) leaves the books unchanged.
- `Holdings.UnderlyingName`: for a name that is all digits the regex match is `None`; the model returns the empty name.
- `Driver.BacktestLoopHelper`: states only which histories may grow; the trades themselves are stated by `Driver.BacktestBuy` and `Driver.BacktestSell`.
- `Driver.BacktestBuy`, `Driver.BacktestSell`: as written, `backtest_buy` and `backtest_sell` call `buy`/`sell` with three arguments where four are needed (`Driver.TradeCallAsWrittenRaises`); the model passes the strategy's asset name as `stock`.
- `Driver.ValueAndTrade`: states the history row and which logs may grow; the books after the sweep and the two trades are stated one step at a time by `Backtesting.BacktestingState.UpdatePortfolioValue`, `Driver.BacktestBuy` and `Driver.BacktestSell`, not composed into one contract.
- `Driver.RunTick`: states the tick's progress (one history row, the clock index, the logs dated and in the window), not the books after the sweep, the buy and the sell; those are stated one step at a time by `Backtesting.BacktestingState.UpdatePortfolioValue`, `Driver.BacktestBuy` and `Driver.BacktestSell`.
- `Driver.BacktestLoop`: states the clock and logs through `Progress`, not the per-tick trades.
- `Ledger.Combine`: states only that the result holds flagged names; `Ledger.CombineIsMeet` and `Ledger.CombineStartsOver` give the rest.
- `Prices.Resolve`: its contract states the exact-date case; the other fallbacks are the lemmas after it.
- Floating point: prices and quantities are exact reals.
- `Backtesting.HodlUnits`, `Backtesting.BacktestingState.Create`, `Conditions.Condition.ScanHoldings`, `Ledger.SharesToBuy`, `Ledger.SaleQuote`, `Holdings.AddedAsWritten`: a division by a zero price or quantity is modelled as a failure (`DivisionByZero`). That is Python's ZeroDivisionError for Python numbers; the prices the engine reads from its frames are NumPy float64, whose division by zero gives inf or nan with a warning and carries on (inf units bought or sold, a holding flagged by an inf ratio, a nan cost that lines 605-606 of backtesting/State.py then delete). Reals have no inf or nan, so those runs are not modelled.

## Findings

| source | as written | input that shows it | evidently intended | confidence | as-written member | corrected member |
|---|---|---|---|---|---|---|
| backtesting/State.py:246-249 | `update_price` divides by the new quantity before `add_holdings` checks for zero | holding 2 SPY, `add_holdings("SPY", -2, 310)` with Python numbers: ZeroDivisionError. The program's own purchases pass NumPy float64 prices read from the frames, for which the division gives nan with a warning and lines 605-606 then delete the holding, so they are not affected | the emptied holding is removed, as lines 605-606 intend | not executed | Holdings.AddedAsWritten, Holdings.AddToZeroDiffers | Holdings.Added |
| backtesting/Backtesting.py:75-87 | `backtest_buy`/`backtest_sell` call `portfolio.buy(stock_strategy, date, time)`, but `buy` and `sell` take `stock` first (backtesting/State.py:816, 903) | any true buying or selling signal (TypeError) | pass the strategy's asset name as `stock` | not executed | Driver.Bind, Driver.TradeCallAsWrittenRaises | Driver.BacktestBuy, Driver.BacktestSell |
| backtesting/State.py:890 | `sell_option` credits contracts × price | buy 1 contract at 2.00 (debit 200), close at 2.00 (credit 2) | credit 100 × contracts × price, as `buy_options` and `liquidate` do | not executed | Ledger.CloseProceedsAsWritten, Ledger.OptionRoundTripAsWrittenLoses | Ledger.CloseProceeds, Ledger.OptionRoundTrip |
| backtesting/State.py:135-144 | deleting from the list being iterated skips the next holding | two expired options in a row | every expired option is liquidated | not executed | Backtesting.SweepAsWritten, Backtesting.SweepAsWrittenSkipsNeighbour | Backtesting.Sweep, Backtesting.KeptExactly |
