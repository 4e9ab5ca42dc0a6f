/** The backtest driver: validating the date arguments, counting the ticks of the
    'All' window, and the tick loop that values the portfolio, tries a buy and a sell
    and moves the clock on. The strategy's buying and selling signals are parameters. */
module Driver {
  import opened Common
  import opened Calendar
  import opened OptionSymbols
  import opened Clock
  import opened Prices
  import opened Holdings
  import opened Strategies
  import opened Ledger
  import opened Backtesting

  // ---------------------------------------------------------------- date arguments

  /** `re.split(r'[\-]', s)`: the pieces between dashes, empty ones included. */
  function SplitDash(s: string): (parts: seq<string>)
    ensures |parts| >= 1
    ensures forall k :: 0 <= k < |parts| ==> '-' !in parts[k]
  {
    if s == [] then [""]
    else
      var rest := SplitDash(s[1..]);
      if s[0] == '-' then [""] + rest
      else [[s[0]] + rest[0]] + rest[1..]
  }

  /** `'-'.join(parts)`. */
  function JoinDash(parts: seq<string>): string
    requires |parts| >= 1
  {
    if |parts| == 1 then parts[0] else parts[0] + "-" + JoinDash(parts[1..])
  }

  /** Splitting at the dashes loses nothing: joining the pieces gives the text back. */
  lemma {:induction false} SplitDashRoundTrip(s: string)
    ensures JoinDash(SplitDash(s)) == s
  {
    if s != [] {
      var rest := SplitDash(s[1..]);
      SplitDashRoundTrip(s[1..]);
      if s[0] == '-' {
        assert ([""] + rest)[1..] == rest;
        assert s == "" + "-" + s[1..];
      } else if |rest| == 1 {
        assert s == [s[0]] + rest[0];
      } else {
        var parts := [[s[0]] + rest[0]] + rest[1..];
        assert parts[1..] == rest[1..];
        assert s == [s[0]] + (rest[0] + "-" + JoinDash(rest[1..]));
      }
    }
  }

  /** `str.isdigit` on ASCII text: nonempty and all digits; `int(x)` of such text
      is `DigitsValue(x)`. */
  predicate IsDigitText(x: string) {
    |x| > 0 && AllDigits(x)
  }

  /** A date `datetime.date` can hold: a calendar date in years 1 to 9999. */
  predicate Representable(d: Date) {
    ValidDate(d) && d.year <= 9999
  }

  /** The date made of the first three pieces, read as year, month, day. */
  function DateOf(parts: seq<string>): Date
    requires |parts| >= 3 && forall k :: 0 <= k < |parts| ==> IsDigitText(parts[k])
  {
    assert IsDigitText(parts[0]) && IsDigitText(parts[1]) && IsDigitText(parts[2]);
    Date(DigitsValue(parts[0]), DigitsValue(parts[1]), DigitsValue(parts[2]))
  }

  /** The loop's verdict on the pieces it pairs up: both all digits and both positive. */
  predicate PairsPositive(a: seq<string>, b: seq<string>) {
    forall k :: 0 <= k < |a| && k < |b| ==>
      IsDigitText(a[k]) && IsDigitText(b[k]) && DigitsValue(a[k]) > 0 && DigitsValue(b[k]) > 0
  }

  /** What `check_backtest_preconditions` accepts: every piece of both arguments is
      a number, the paired pieces are positive, both name representable dates, and
      the end date is not before the start date. */
  predicate Accepted(startText: string, endText: string) {
    var a, b := SplitDash(startText), SplitDash(endText);
    (forall k :: 0 <= k < |a| ==> IsDigitText(a[k])) &&
    (forall k :: 0 <= k < |b| ==> IsDigitText(b[k])) &&
    |a| >= 3 && |b| >= 3 && PairsPositive(a, b) &&
    Representable(DateOf(a)) && Representable(DateOf(b)) &&
    Ordinal(DateOf(a)) <= Ordinal(DateOf(b))
  }

  /** The validity flag folded over the pairs of `zip(start_arr, end_arr)`. */
  method PairsAreValid(a: seq<string>, b: seq<string>) returns (valid: bool)
    ensures valid <==> PairsPositive(a, b)
  {
    valid := true;
    var k := 0;
    while k < |a| && k < |b|
      invariant 0 <= k <= |a| && (k <= |b|)
      invariant valid <==> PairsPositive(a[..k], b[..k])
    {
      valid := IsDigitText(a[k]) && IsDigitText(b[k]) && valid;
      if valid {
        valid := valid && DigitsValue(a[k]) > 0 && DigitsValue(b[k]) > 0;
      }
      assert a[..k + 1][k] == a[k] && b[..k + 1][k] == b[k];
      k := k + 1;
    }
    assert PairsPositive(a[..k], b[..k]) <==> PairsPositive(a, b);
  }

  /** `[int(x) for x in parts]`: fails on the first piece that is not a number. */
  method ParseAll(parts: seq<string>) returns (r: Result<seq<nat>>)
    ensures r.Ok? <==> forall k :: 0 <= k < |parts| ==> IsDigitText(parts[k])
    ensures r.Ok? ==> |r.value| == |parts| && forall k :: 0 <= k < |parts| ==> r.value[k] == DigitsValue(parts[k])
    ensures r.Fail? ==> r.failure == InvalidDates
  {
    var values: seq<nat> := [];
    var k := 0;
    while k < |parts|
      invariant 0 <= k <= |parts| && |values| == k
      invariant forall i :: 0 <= i < k ==> IsDigitText(parts[i]) && values[i] == DigitsValue(parts[i])
    {
      if !IsDigitText(parts[k]) {
        return Fail(InvalidDates);
      }
      values := values + [DigitsValue(parts[k])];
      k := k + 1;
    }
    r := Ok(values);
  }

  /** `date(y, m, d)`: the first three numbers, if they name a representable date. */
  method MakeDate(values: seq<nat>) returns (r: Result<Date>)
    ensures r.Ok? <==> |values| >= 3 && Representable(Date(values[0], values[1], values[2]))
    ensures r.Ok? ==> r.value == Date(values[0], values[1], values[2])
    ensures r.Fail? ==> r.failure == InvalidDates
  {
    if |values| < 3 {
      return Fail(InvalidDates);
    }
    var d := Date(values[0], values[1], values[2]);
    if !Representable(d) {
      return Fail(InvalidDates);
    }
    r := Ok(d);
  }

  /** `check_backtest_preconditions`: every way it can stop the program (a piece
      `int` rejects, too few pieces, no such date, a zero piece, an end before the
      start) is `Fail(InvalidDates)`. The resolution and `days` checks cannot fail. */
  method CheckBacktestPreconditions(startText: string, endText: string) returns (r: Result<(Date, Date)>)
    ensures r.Ok? <==> Accepted(startText, endText)
    ensures r.Ok? ==> r.value == (DateOf(SplitDash(startText)), DateOf(SplitDash(endText)))
    ensures r.Fail? ==> r.failure == InvalidDates
  {
    var a := SplitDash(startText);
    var b := SplitDash(endText);
    var valid := PairsAreValid(a, b);
    var startValues := ParseAll(a);
    if startValues.Fail? {
      return Fail(InvalidDates);
    }
    var endValues := ParseAll(b);
    if endValues.Fail? {
      return Fail(InvalidDates);
    }
    var endDate := MakeDate(endValues.value);
    if endDate.Fail? {
      return Fail(InvalidDates);
    }
    var startDate := MakeDate(startValues.value);
    if startDate.Fail? {
      return Fail(InvalidDates);
    }
    assert startDate.value == DateOf(a) && endDate.value == DateOf(b);
    valid := valid && Ordinal(endDate.value) - Ordinal(startDate.value) >= 0;
    if !valid {
      return Fail(InvalidDates);
    }
    r := Ok((startDate.value, endDate.value));
  }

  // ---------------------------------------------------------------- ticks

  /** The tick count of an 'All' backtest: the days between the dates times the
      ticks per day. */
  function TickCount(start: Date, end: Date, r: Resolution): (count: nat)
    requires ValidDate(start) && ValidDate(end) && Ordinal(start) <= Ordinal(end)
  {
    (Ordinal(end) - Ordinal(start)) * Ticks(r)
  }

  /** The date of tick `epoch`: the start date plus `epoch div ticks` days. */
  function TickDate(start: Date, epoch: nat, r: Resolution): (d: Date)
    requires ValidDate(start)
    ensures ValidDate(d) && Ordinal(d) == Ordinal(start) + epoch / Ticks(r)
  {
    AddDays(start, epoch / Ticks(r))
  }

  /** Whole division by a positive number never decreases. */
  lemma DivMonotone(x: nat, y: nat, t: nat)
    requires x <= y && t > 0
    ensures x / t <= y / t
  {
    var q, p := x / t, y / t;
    assert q * t <= x;
    assert y == p * t + y % t && y % t < t;
    assert q * t < (p + 1) * t;
    FactorLess(q, p + 1, t);
  }

  lemma FactorLess(a: int, b: int, t: int)
    requires t > 0 && a * t < b * t
    ensures a < b
  { }

  /** Tick dates never go back. */
  lemma TickDatesMonotone(start: Date, e1: nat, e2: nat, r: Resolution)
    requires ValidDate(start) && e1 <= e2
    ensures Ordinal(TickDate(start, e1, r)) <= Ordinal(TickDate(start, e2, r))
  {
    DivMonotone(e1, e2, Ticks(r));
  }

  /** Day `d` of the backtest gets the `ticks` consecutive epochs `d * ticks + k`. */
  lemma DayOfTick(start: Date, d: nat, k: nat, r: Resolution)
    requires ValidDate(start) && k < Ticks(r)
    ensures Ordinal(TickDate(start, d * Ticks(r) + k, r)) == Ordinal(start) + d
  {
    var t := Ticks(r);
    assert (d * t + k) / t == d by {
      assert d * t <= d * t + k < (d + 1) * t;
    }
  }

  /** The last tick of an 'All' backtest falls on its end date, and the loop's
      result, the last day offset, is the number of days between the dates. */
  lemma LastTickIsEndDate(start: Date, end: Date, r: Resolution)
    requires ValidDate(start) && ValidDate(end) && Ordinal(start) <= Ordinal(end)
    ensures TickCount(start, end, r) / Ticks(r) == Ordinal(end) - Ordinal(start)
    ensures TickDate(start, TickCount(start, end, r), r) == end
  {
    DayOfTick(start, Ordinal(end) - Ordinal(start), 0, r);
    OrdinalInjective(TickDate(start, TickCount(start, end, r), r), end);
  }

  // ---------------------------------------------------------------- one tick

  /** The parameters of `Portfolio.buy` and `Portfolio.sell` after `self`. */
  const TradeParameters: seq<string> := ["stock", "stock_strategy", "date", "time"]

  /** The arguments `backtest_buy` and `backtest_sell` pass to them: the strategy,
      the date and the time. */
  const TradeArgumentsAsWritten: seq<string> := ["stock_strategy", "current_date", "current_time"]

  /** The arguments the calls need: the strategy's asset name first. */
  const TradeArguments: seq<string> := ["stock_name", "stock_strategy", "current_date", "current_time"]

  /** Python's binding of positional arguments to parameters without defaults: the
      k-th argument goes to the k-th parameter; the first parameter left without an
      argument is a TypeError, and so is an argument left over. */
  function Bind(params: seq<string>, args: seq<string>): (r: Result<map<string, string>>)
    requires forall i, j :: 0 <= i < j < |params| ==> params[i] != params[j]
    ensures r.Ok? <==> |args| == |params|
    ensures |args| < |params| ==> r == Fail(MissingArgument(params[|args|]))
    ensures r.Ok? ==> forall k :: 0 <= k < |params| ==> params[k] in r.value && r.value[params[k]] == args[k]
    decreases |params|
  {
    if params == [] then (if args == [] then Ok(map[]) else Fail(ExtraArgument))
    else if args == [] then Fail(MissingArgument(params[0]))
    else match Bind(params[1..], args[1..])
      case Fail(e) => Fail(e)
      case Ok(m) =>
        assert forall k :: 1 <= k < |params| ==> params[k] == params[1..][k - 1];
        Ok(m[params[0] := args[0]])
  }

  /** As written, every buy and sell call of the driver stops the run: `time` gets
      no argument. With the asset name passed first, `stock` is the asset's name and
      the other parameters get what the source intends. */
  lemma TradeCallAsWrittenRaises()
    ensures Bind(TradeParameters, TradeArgumentsAsWritten) == Fail(MissingArgument("time"))
    ensures var b := Bind(TradeParameters, TradeArguments);
            b.Ok? && b.value["stock"] == "stock_name" && b.value["stock_strategy"] == "stock_strategy" &&
            b.value["date"] == "current_date" && b.value["time"] == "current_time"
  {
    var b := Bind(TradeParameters, TradeArguments);
    assert TradeParameters[0] == "stock" && TradeParameters[1] == "stock_strategy";
    assert TradeParameters[2] == "date" && TradeParameters[3] == "time";
  }

  /** What `portfolio.buy(stock_name, stock_strategy, ...)` does to the books, by
      asset class, with the strategy's asset name as `stock`. */
  function BuyOutcome(s: HoldingsStrategy, b: Books, fee: real, today: Date, time: string,
                      fetch: (string, Date) -> Option<PriceSeries>): Result<(bool, Books)>
    requires ValidDate(today)
  {
    if s.assetClass == Options then BuyOptionsOutcome(s.assetName, s, b, fee, today, time, fetch)
    else BuyShares(s.assetName, s, b, fee, today, time)
  }

  /** A dated entry appended to a history exactly when the step succeeded with true. */
  predicate Logged(after: seq<(Date, string)>, before: seq<(Date, string)>, logged: bool, entry: (Date, string)) {
    after == before + (if logged then [entry] else [])
  }

  /** `backtest_buy`: on a buy signal the portfolio buys, and a purchase it reports is
      acknowledged. The call passes the asset name as `stock`, which the source's
      three-argument call omits (`TradeCallAsWrittenRaises`). */
  method BacktestBuy(state: BacktestingState, today: Date, time: string,
                     buySignal: (Date, string) -> bool,
                     fetch: (string, Date) -> Option<PriceSeries>) returns (r: Result<bool>)
    requires state.portfolio.Valid() && ValidDate(today)
    modifies state, state.portfolio, state.strategy
    ensures state.portfolio.Valid() && state.portfolio.initialValue == old(state.portfolio.initialValue)
    ensures state.history == old(state.history) && state.sellHistory == old(state.sellHistory)
    ensures !buySignal(today, time) ==> r == Ok(false) && state.portfolio.AsBooks() == old(state.portfolio.AsBooks())
    ensures buySignal(today, time) ==>
              Settles(r, BuyOutcome(state.strategy, old(state.portfolio.AsBooks()), state.portfolio.fees, today, time, fetch),
                      old(state.portfolio.AsBooks()), state.portfolio.AsBooks())
    ensures state.strategy.lastPurchase == (if r == Ok(true) then Some((today, time)) else old(state.strategy.lastPurchase))
    ensures state.strategy.lastSale == old(state.strategy.lastSale)
    ensures Logged(state.buyHistory, old(state.buyHistory),
                   r == Ok(true) && Amount(state.strategy.buyingAllocation) > 0.0, (today, state.strategy.assetName))
  {
    var s := state.strategy;
    var portfolio := state.portfolio;
    if !buySignal(today, time) {
      return Ok(false);
    }
    r := portfolio.Buy(s.assetName, s, today, time, fetch);
    if r == Ok(true) {
      state.AcknowledgeBuy(s, today, time);
    }
  }

  /** `backtest_sell`: a strategy that must be profitable only sells while the
      portfolio is worth more than it started with; a sale it reports is acknowledged.
      The call passes the asset name as `stock`, as `backtest_buy` does. */
  method BacktestSell(state: BacktestingState, today: Date, time: string,
                      sellSignal: (Date, string, bool) -> bool) returns (r: Result<bool>, ghost sold: string)
    requires state.portfolio.Valid() && ValidDate(today)
    modifies state, state.portfolio, state.strategy, state.strategy.sellingConditions
    ensures state.portfolio.Valid() && state.portfolio.initialValue == old(state.portfolio.initialValue)
    ensures state.history == old(state.history) && state.buyHistory == old(state.buyHistory)
    ensures var value := old(state.portfolio.Value(Ordinal(today), time));
            state.strategy.mustBeProfitable && value.Fail? ==>
              r == Fail(value.failure) && state.portfolio.AsBooks() == old(state.portfolio.AsBooks())
    ensures var value := old(state.portfolio.Value(Ordinal(today), time));
            state.strategy.mustBeProfitable && value.Ok? && value.value <= state.portfolio.initialValue ==>
              r == Ok(false) && state.portfolio.AsBooks() == old(state.portfolio.AsBooks())
    ensures var value := old(state.portfolio.Value(Ordinal(today), time));
            var profitable := !state.strategy.mustBeProfitable || (value.Ok? && value.value > state.portfolio.initialValue);
            profitable && !sellSignal(today, time, true) ==>
              r == Ok(false) && state.portfolio.AsBooks() == old(state.portfolio.AsBooks())
    ensures var value := old(state.portfolio.Value(Ordinal(today), time));
            var profitable := !state.strategy.mustBeProfitable || (value.Ok? && value.value > state.portfolio.initialValue);
            profitable && sellSignal(today, time, true) && state.strategy.assetClass != Options ==>
              Settles(r, SellShares(state.strategy.assetName, state.strategy, old(state.portfolio.AsBooks()),
                                    state.portfolio.fees, Ordinal(today), time),
                      old(state.portfolio.AsBooks()), state.portfolio.AsBooks())
    ensures var value := old(state.portfolio.Value(Ordinal(today), time));
            var profitable := !state.strategy.mustBeProfitable || (value.Ok? && value.value > state.portfolio.initialValue);
            profitable && sellSignal(today, time, true) && state.strategy.assetClass == Options ==>
              OptionSaleSettles(r, sold, state.strategy.assetName, state.strategy, old(state.portfolio.AsBooks()),
                                state.portfolio.AsBooks(), state.portfolio.fees, Ordinal(today), time,
                                old(SellSets(state.strategy.sellingConditions)))
    ensures state.strategy.lastSale == (if r == Ok(true) then Some((today, time)) else old(state.strategy.lastSale))
    ensures state.strategy.lastPurchase == old(state.strategy.lastPurchase)
    ensures Logged(state.sellHistory, old(state.sellHistory), r == Ok(true), (today, state.strategy.assetName))
  {
    sold := "";
    var s := state.strategy;
    var portfolio := state.portfolio;
    var profitable := true;
    if s.mustBeProfitable {
      var check := portfolio.IsProfitable(Ordinal(today), time);
      if check.Fail? {
        return Fail(check.failure), sold;
      }
      profitable := check.value;
    }
    if !(profitable && sellSignal(today, time, profitable)) {
      return Ok(false), sold;
    }
    r, sold := portfolio.Sell(s.assetName, s, today, time);
    if r == Ok(true) {
      state.AcknowledgeSell(s, today, time);
    }
  }

  /** `backtest_loop_helper`: the buy, then the sell. */
  method BacktestLoopHelper(state: BacktestingState, today: Date, time: string,
                            buySignal: (Date, string) -> bool, sellSignal: (Date, string, bool) -> bool,
                            fetch: (string, Date) -> Option<PriceSeries>) returns (r: Result<bool>)
    requires state.portfolio.Valid() && ValidDate(today)
    modifies state, state.portfolio, state.strategy, state.strategy.sellingConditions
    ensures state.portfolio.Valid() && state.portfolio.initialValue == old(state.portfolio.initialValue)
    ensures state.history == old(state.history)
    ensures state.buyHistory == old(state.buyHistory) ||
            state.buyHistory == old(state.buyHistory) + [(today, state.strategy.assetName)]
    ensures state.sellHistory == old(state.sellHistory) ||
            state.sellHistory == old(state.sellHistory) + [(today, state.strategy.assetName)]
  {
    var bought := BacktestBuy(state, today, time, buySignal, fetch);
    if bought.Fail? {
      return Fail(bought.failure);
    }
    ghost var sold;
    r, sold := BacktestSell(state, today, time, sellSignal);
    if r.Fail? {
      return Fail(r.failure);
    }
  }

  /** Dated entries in date order, all between `first` and `last`. */
  predicate InWindow(h: seq<(Date, string)>, first: Date, lastDay: int)
    requires ValidDate(first)
  {
    (forall k :: 0 <= k < |h| ==> ValidDate(h[k].0) && Ordinal(first) <= Ordinal(h[k].0) <= lastDay) &&
    (forall i, j :: 0 <= i < j < |h| && ValidDate(h[i].0) && ValidDate(h[j].0) ==> Ordinal(h[i].0) <= Ordinal(h[j].0))
  }

  /** What `backtest_loop` keeps true from tick to tick: the clock and the new
      history entries are where `epoch` ticks from the start put them. */
  ghost predicate Progress(state: BacktestingState, clock: Time, start: Date, res: Resolution, epoch: nat,
                           index0: nat, buys0: nat, sells0: nat)
    reads state, state.portfolio, clock
    requires ValidDate(start)
  {
    state.portfolio.Valid() && clock.Valid() && clock.labels == Labels(res) &&
    clock.index == (index0 + epoch) % Ticks(res) &&
    buys0 <= |state.buyHistory| && sells0 <= |state.sellHistory| &&
    InWindow(state.buyHistory[buys0..], start, Ordinal(start) + LastDay(epoch, res)) &&
    InWindow(state.sellHistory[sells0..], start, Ordinal(start) + LastDay(epoch, res))
  }

  /** One turn of `backtest_loop`: value the portfolio at tick `epoch`, trade, move
      the clock on. */
  method RunTick(state: BacktestingState, start: Date, epoch: nat, res: Resolution, clock: Time,
                 buySignal: (Date, string) -> bool, sellSignal: (Date, string, bool) -> bool,
                 fetch: (string, Date) -> Option<PriceSeries>, ghost index0: nat, ghost buys0: nat, ghost sells0: nat)
    returns (r: Result<bool>)
    requires ValidDate(start) && Progress(state, clock, start, res, epoch, index0, buys0, sells0)
    modifies state, state.portfolio, state.strategy, state.strategy.sellingConditions, clock
    ensures state.portfolio.Valid() && state.portfolio.initialValue == old(state.portfolio.initialValue)
    ensures r.Ok? ==> |state.history| == |old(state.history)| + 1
    ensures r.Ok? ==> Progress(state, clock, start, res, epoch + 1, index0, buys0, sells0)
  {
    var today := TickDate(start, epoch, res);
    var time := clock.Label();
    ghost var buysBefore, sellsBefore := state.buyHistory, state.sellHistory;
    var traded := ValueAndTrade(state, today, time, buySignal, sellSignal, fetch);
    if traded.Fail? {
      return Fail(traded.failure);
    }
    clock.ForwardTime(res);
    TickStepKeepsWindow(buysBefore, state.buyHistory, buys0, start, epoch, today, state.strategy.assetName, res);
    TickStepKeepsWindow(sellsBefore, state.sellHistory, sells0, start, epoch, today, state.strategy.assetName, res);
    TickAfterSteps(res, index0 + epoch);
    assert clock.index == (index0 + epoch + 1) % Ticks(res);
    r := Ok(true);
  }

  /** The trading half of a tick: `update_portfolio_value`, then `loop_helper`. */
  method ValueAndTrade(state: BacktestingState, today: Date, time: string,
                       buySignal: (Date, string) -> bool, sellSignal: (Date, string, bool) -> bool,
                       fetch: (string, Date) -> Option<PriceSeries>) returns (r: Result<bool>)
    requires state.portfolio.Valid() && ValidDate(today)
    modifies state, state.portfolio, state.strategy, state.strategy.sellingConditions
    ensures state.portfolio.Valid() && state.portfolio.initialValue == old(state.portfolio.initialValue)
    ensures r.Ok? ==> |state.history| == |old(state.history)| + 1
    ensures state.buyHistory == old(state.buyHistory) ||
            state.buyHistory == old(state.buyHistory) + [(today, state.strategy.assetName)]
    ensures state.sellHistory == old(state.sellHistory) ||
            state.sellHistory == old(state.sellHistory) + [(today, state.strategy.assetName)]
  {
    var valued := state.UpdatePortfolioValue(today, time);
    if valued.Fail? {
      return Fail(valued.failure);
    }
    r := BacktestLoopHelper(state, today, time, buySignal, sellSignal, fetch);
  }

  /** `backtest_loop`: ticks 0 to `count` inclusive, each one valued, traded and
      timed on; the result is the last tick's day offset. */
  method BacktestLoop(state: BacktestingState, start: Date, count: nat, res: Resolution, clock: Time,
                      buySignal: (Date, string) -> bool, sellSignal: (Date, string, bool) -> bool,
                      fetch: (string, Date) -> Option<PriceSeries>) returns (r: Result<nat>)
    requires state.portfolio.Valid() && ValidDate(start)
    requires clock.Valid() && clock.labels == Labels(res)
    modifies state, state.portfolio, state.strategy, state.strategy.sellingConditions, clock
    ensures state.portfolio.initialValue == old(state.portfolio.initialValue)
    ensures r.Ok? ==> r.value == count / Ticks(res)
    ensures r.Ok? ==> |state.history| == |old(state.history)| + count + 1
    ensures r.Ok? ==> Progress(state, clock, start, res, count + 1,
                               old(clock.index), |old(state.buyHistory)|, |old(state.sellHistory)|)
  {
    var epoch := 0;
    var dayDelta := 0;
    ghost var buys0, sells0, index0 := |state.buyHistory|, |state.sellHistory|, clock.index;
    assert state.buyHistory[buys0..] == [] && state.sellHistory[sells0..] == [];
    while epoch <= count
      invariant 0 <= epoch <= count + 1
      invariant Progress(state, clock, start, res, epoch, index0, buys0, sells0)
      invariant state.portfolio.initialValue == old(state.portfolio.initialValue)
      invariant |state.history| == |old(state.history)| + epoch
      invariant epoch > 0 ==> dayDelta == (epoch - 1) / Ticks(res)
    {
      dayDelta := epoch / Ticks(res);
      var done := RunTick(state, start, epoch, res, clock, buySignal, sellSignal, fetch, index0, buys0, sells0);
      if done.Fail? {
        return Fail(done.failure);
      }
      epoch := epoch + 1;
    }
    r := Ok(dayDelta);
  }

  /** The day offset of the last tick before `epoch` (0 before the first). */
  function LastDay(epoch: nat, res: Resolution): nat {
    if epoch == 0 then 0 else (epoch - 1) / Ticks(res)
  }

  /** One tick's new history entry, if any, dated `today`, keeps the new part of a
      history in order and inside the window. */
  lemma TickStepKeepsWindow(before: seq<(Date, string)>, after: seq<(Date, string)>, from: nat,
                            start: Date, epoch: nat, today: Date, name: string, res: Resolution)
    requires ValidDate(start) && from <= |before|
    requires today == TickDate(start, epoch, res)
    requires after == before || after == before + [(today, name)]
    requires InWindow(before[from..], start, Ordinal(start) + LastDay(epoch, res))
    ensures from <= |after| && InWindow(after[from..], start, Ordinal(start) + LastDay(epoch + 1, res))
  {
    var lastBefore, lastAfter := Ordinal(start) + LastDay(epoch, res), Ordinal(start) + LastDay(epoch + 1, res);
    if epoch > 0 {
      DivMonotone(epoch - 1, epoch, Ticks(res));
    }
    assert lastBefore <= lastAfter == Ordinal(today);
    var h, old_h := after[from..], before[from..];
    if after == before {
      assert h == old_h;
    } else {
      assert h == old_h + [(today, name)];
      forall k | 0 <= k < |h|
        ensures ValidDate(h[k].0) && Ordinal(start) <= Ordinal(h[k].0) <= lastAfter
      {
        if k < |old_h| {
          assert h[k] == old_h[k];
        }
      }
      forall i, j | 0 <= i < j < |h| && ValidDate(h[i].0) && ValidDate(h[j].0)
        ensures Ordinal(h[i].0) <= Ordinal(h[j].0)
      {
        assert h[i] == old_h[i];
        if j < |old_h| {
          assert h[j] == old_h[j];
        }
      }
    }
  }
}
