/** `Portfolio`: cash (`_buying_power`), a fixed fee charged on every debit and
    credit, the list of holdings, and the price series of every asset it has traded
    (`_strategies`, keyed by asset name). */
module Ledger {
  import opened Common
  import opened Numeric
  import opened Calendar
  import opened OptionSymbols
  import opened Prices
  import opened Holdings
  import opened Conditions
  import opened Strategies

  /** `decrease_buying_power`: the cost and the fee leave the cash. */
  function Debit(cash: real, cost: real, fee: real): (r: real)
    ensures r + cost + fee == cash
  {
    cash - (cost + fee)
  }

  /** `increase_buying_power`: the gain arrives, less the fee. */
  function Credit(cash: real, gain: real, fee: real): (r: real)
    ensures r - gain + fee == cash
  {
    cash + (gain - fee)
  }

  /** Buying and then selling the same notional costs exactly two fees. */
  lemma RoundTripCostsTwoFees(cash: real, notional: real, fee: real)
    ensures Credit(Debit(cash, notional, fee), notional, fee) == cash - 2.0 * fee
  {
  }

  /** `get_portfolio_value`: cash plus the market value of the holdings. */
  function ValueOf(hs: seq<Holding>, cash: real, strategies: map<string, PriceSeries>,
                   day: int, time: string): (r: Result<real>)
    ensures r.Ok? <==> HoldingsValue(hs, strategies, day, time).Ok?
    ensures r.Ok? ==> r.value - cash == HoldingsValue(hs, strategies, day, time).value
  {
    match HoldingsValue(hs, strategies, day, time)
    case Fail(e) => Fail(e)
    case Ok(v) => Ok(cash + v)
  }

  /** Once a prefix of the holdings cannot be valued, the whole list fails the same way. */
  lemma {:induction false} ValueFailsFromPrefix(hs: seq<Holding>, k: nat,
                                                strategies: map<string, PriceSeries>, day: int, time: string)
    requires k <= |hs| && HoldingsValue(hs[..k], strategies, day, time).Fail?
    ensures HoldingsValue(hs, strategies, day, time) == HoldingsValue(hs[..k], strategies, day, time)
    decreases |hs| - k
  {
    if k < |hs| {
      assert hs[..k + 1][..k] == hs[..k];
      ValueFailsFromPrefix(hs, k + 1, strategies, day, time);
    } else {
      assert hs[..k] == hs;
    }
  }

  /** The first holding that cannot be priced decides the failure of the whole list. */
  lemma ValueFailsAt(hs: seq<Holding>, i: nat, strategies: map<string, PriceSeries>, day: int, time: string)
    requires i < |hs| && HoldingsValue(hs[..i], strategies, day, time).Ok?
    requires HoldingValue(hs[i], strategies, day, time).Fail?
    ensures HoldingsValue(hs, strategies, day, time) == HoldingValue(hs[i], strategies, day, time)
  {
    assert hs[..i + 1][..i] == hs[..i];
    ValueFailsFromPrefix(hs, i + 1, strategies, day, time);
  }

  /** A crypto holding cannot be valued (its frame has a Symbol column, whose branch
      of the resolver raises), so no portfolio holding one has a value. */
  lemma CryptoBlocksValue(hs: seq<Holding>, i: nat, cash: real, strategies: map<string, PriceSeries>,
                          day: int, time: string)
    requires i < |hs| && hs[i].assetClass == Crypto
    ensures ValueOf(hs, cash, strategies, day, time).Fail?
  {
    if HoldingsValue(hs[..i], strategies, day, time).Fail? {
      ValueFailsFromPrefix(hs, i, strategies, day, time);
    } else {
      ValueFailsAt(hs, i, strategies, day, time);
    }
  }

  /** One more holding that can be priced adds its value to the running total. */
  lemma ValueStep(hs: seq<Holding>, i: nat, strategies: map<string, PriceSeries>, day: int, time: string,
                  acc: real)
    requires i < |hs| && HoldingValue(hs[i], strategies, day, time).Ok?
    requires var v := HoldingsValue(hs[..i], strategies, day, time); v.Ok? && v.value == acc
    ensures var v := HoldingsValue(hs[..i + 1], strategies, day, time);
            v.Ok? && v.value == acc + HoldingValue(hs[i], strategies, day, time).value
  {
    HoldingsValueSnoc(hs[..i], hs[i], strategies, day, time);
    assert hs[..i + 1] == hs[..i] + [hs[i]];
  }

  /** Units to buy and what they cost. */
  datatype Quote = Quote(shares: real, total: real)

  /** The dollars a fractional allocation targets: a fraction of the portfolio value
      or of the buying power; any other allocation type is the fatal `log_error`. */
  function Dollars(basis: AllocationBasis, value: Result<real>, cash: real, fraction: real): Result<real>
  {
    match basis
    case PercentPortfolio => (match value case Fail(e) => Fail(e) case Ok(v) => Ok(v * fraction))
    case PercentBuyingPower => Ok(cash * fraction)
    case OtherBasis => Fail(InvalidAllocationType)
  }

  /** Whole shares bought with `dollars` at `price`: at most `dollars`, and less than
      one share short of it. */
  lemma FloorShares(dollars: real, price: real)
    requires price != 0.0
    ensures var shares := (dollars / price).Floor as real;
            price > 0.0 ==> shares * price <= dollars < shares * price + price
  {
    if price > 0.0 {
      var x := dollars / price;
      ScaleUnitInterval(x.Floor as real, x, price, dollars);
    }
  }

  lemma ScaleUnitInterval(lo: real, x: real, k: real, y: real)
    requires lo <= x < lo + 1.0 && k > 0.0 && x * k == y
    ensures lo * k <= y < lo * k + k
  {
    var below, above := x - lo, lo + 1.0 - x;
    ProductNonNegative(below, k);
    SubtractScaled(x, lo, k);
    assert below * k == y - lo * k;
    ProductPositive(above, k);
    SubtractScaled(lo + 1.0, x, k);
    AddScaled(lo, 1.0, k);
    assert above * k == lo * k + k - y;
  }

  lemma SubtractScaled(a: real, b: real, k: real)
    ensures (a - b) * k == a * k - b * k
  { }

  lemma AddScaled(a: real, b: real, k: real)
    ensures (a + b) * k == a * k + b * k
  { }

  lemma ProductPositive(a: real, b: real)
    requires a > 0.0 && b > 0.0
    ensures a * b > 0.0
  { }

  /** `shares_to_buy`: an integer allocation buys exactly that many units; a float
      allocation spends a fraction of the portfolio value or of the buying power,
      in whole shares for stocks (floor division) and in fractional units for
      crypto. Options never reach it; any other asset class returns None, which the
      caller fails to unpack. */
  function SharesToBuy(cls: AssetClass, allocation: Allocation, basis: AllocationBasis,
                       value: Result<real>, cash: real, lastPrice: real): (r: Result<Quote>)
    ensures cls == Options || cls == Unrecognised ==> r == Fail(InvalidAssetType)
    ensures (cls == Stocks || cls == Crypto) && allocation.Units? ==>
              r.Ok? && r.value.shares == allocation.count as real &&
              r.value.total == (allocation.count as real) * lastPrice
    ensures (cls == Stocks || cls == Crypto) && allocation.Fraction? ==>
              (r.Ok? <==> Dollars(basis, value, cash, allocation.fraction).Ok? && lastPrice != 0.0)
    ensures cls == Stocks && allocation.Fraction? && r.Ok? ==>
              r.value.shares.Floor as real == r.value.shares && r.value.total == r.value.shares * lastPrice
    ensures cls == Stocks && allocation.Fraction? && r.Ok? && lastPrice > 0.0 ==>
              var dollars := Dollars(basis, value, cash, allocation.fraction).value;
              r.value.total <= dollars < r.value.total + lastPrice
    ensures cls == Crypto && allocation.Fraction? && r.Ok? ==>
              r.value.total == Dollars(basis, value, cash, allocation.fraction).value &&
              r.value.shares * lastPrice == r.value.total
  {
    if cls != Stocks && cls != Crypto then Fail(InvalidAssetType)
    else match allocation
      case Units(k) => Ok(Quote(k as real, (k as real) * lastPrice))
      case Fraction(f) =>
        match Dollars(basis, value, cash, f)
        case Fail(e) => Fail(e)
        case Ok(dollars) =>
          if lastPrice == 0.0 then Fail(DivisionByZero)
          else if cls == Stocks then
            var shares := (dollars / lastPrice).Floor as real;
            FloorShares(dollars, lastPrice);
            Ok(Quote(shares, shares * lastPrice))
          else Ok(Quote(dollars / lastPrice, dollars))
  }

  /** The last price and the quote a stock or crypto purchase uses. */
  datatype Order = Order(price: real, quote: Quote)

  /** The first half of `buy` for stocks and crypto: the strategy's last price, then
      the units `shares_to_buy` sizes at that price against the current books. */
  function StockOrder(s: HoldingsStrategy, hs: seq<Holding>, cash: real,
                      strategies: map<string, PriceSeries>, day: int, time: string): (r: Result<Order>)
    ensures s.Price(day, time).Fail? ==> r.Fail?
    ensures r.Ok? <==> s.Price(day, time).Ok? &&
                       SharesToBuy(s.assetClass, s.buyingAllocation, s.basis, ValueOf(hs, cash, strategies, day, time),
                                   cash, s.Price(day, time).value).Ok?
    ensures r.Ok? ==> s.Price(day, time) == Ok(r.value.price) &&
                      SharesToBuy(s.assetClass, s.buyingAllocation, s.basis, ValueOf(hs, cash, strategies, day, time),
                                  cash, r.value.price) == Ok(r.value.quote)
  {
    match s.Price(day, time)
    case Fail(e) => Fail(e)
    case Ok(p) =>
      match SharesToBuy(s.assetClass, s.buyingAllocation, s.basis, ValueOf(hs, cash, strategies, day, time), cash, p)
      case Fail(e) => Fail(e)
      case Ok(q) => Ok(Order(p, q))
  }

  /** The guard of `buy` and `buy_options`: the purchase keeps the asset within its
      maximum allocation, costs less than the buying power, and is not empty. */
  predicate BuyAllowed(allocation: real, total: real, maxAllocation: real, value: real, cash: real) {
    !(allocation + total > maxAllocation * value) && total < cash && total != 0.0
  }

  /** The contract `buy_options` would open: its symbol and series, the
      underlying's last price, the contract price and the number of contracts. */
  datatype OptionLeg = OptionLeg(symbol: string, series: PriceSeries, underlyingPrice: real,
                                 price: real, contracts: real)

  /** The first half of `buy_options`, for the underlying `stock`: Fail for an
      error outside its `try` (no underlying price, an expiration year outside
      2000-2099), `Ok(None)` when the fetch returns no frame or the contract price
      raises inside the `try`, and otherwise the contract to open. */
  function OptionOrder(stock: string, s: HoldingsStrategy, today: Date, time: string,
                       fetch: (string, Date) -> Option<PriceSeries>): (r: Result<Option<OptionLeg>>)
    requires ValidDate(today)
    ensures s.Price(Ordinal(today), time).Fail? ==> r == Fail(PriceUnavailable)
    ensures s.Price(Ordinal(today), time).Ok? ==>
              var symbol := OptionSymbol(stock, s.Price(Ordinal(today), time).value, today, s.strikesAbove, s.optionType);
              (symbol.None? ==> r == Fail(BadExpiration(stock))) &&
              (symbol.Some? ==>
                 r.Ok? && (r.value.Some? <==> fetch(symbol.value, today).Some? &&
                                              Resolve(fetch(symbol.value, today).value, Ordinal(today), time).Ok?))
    ensures r.Ok? && r.value.Some? ==>
              var leg := r.value.value;
              fetch(leg.symbol, today) == Some(leg.series) &&
              Resolve(leg.series, Ordinal(today), time) == Ok(leg.price) &&
              leg.contracts == Amount(s.buyingAllocation) &&
              s.Price(Ordinal(today), time) == Ok(leg.underlyingPrice) &&
              Some(leg.symbol) == OptionSymbol(stock, leg.underlyingPrice, today, s.strikesAbove, s.optionType)
  {
    var day := Ordinal(today);
    match s.Price(day, time)
    case Fail(e) => Fail(e)
    case Ok(last) =>
      match OptionSymbol(stock, last, today, s.strikesAbove, s.optionType)
      case None => Fail(BadExpiration(stock))
      case Some(symbol) =>
        match fetch(symbol, today)
        case None => Ok(None)
        case Some(df) =>
          match Resolve(df, day, time)
          case Fail(_) => Ok(None)
          case Ok(p) => Ok(Some(OptionLeg(symbol, df, last, p, Amount(s.buyingAllocation))))
  }

  /** What opening `contracts` contracts at `price` costs. */
  function ContractCost(contracts: real, price: real): real {
    100.0 * contracts * price
  }

  /** The part of a portfolio that trading changes: its holdings, its cash and the
      price series of every asset it has traded. */
  datatype Books = Books(holdings: seq<Holding>, cash: real, strategies: map<string, PriceSeries>)

  function BooksValue(b: Books, day: int, time: string): Result<real> {
    ValueOf(b.holdings, b.cash, b.strategies, day, time)
  }

  /** A purchase the guard allowed: the cost and the fee leave the cash, the units
      join the ledger and the asset's series is recorded. */
  function Bought(b: Books, name: string, n: real, price: real, cls: AssetClass, today: Date,
                  cost: real, fee: real, key: string, series: PriceSeries): (r: Result<Books>)
    ensures r.Ok? <==> MakeHolding(name, n, price, cls, Some(today)).Ok?
    ensures r.Ok? ==> r.value.cash + cost + fee == b.cash
    ensures r.Ok? ==> Position(r.value.holdings, name) == Position(b.holdings, name) + n
    ensures r.Ok? ==> forall other :: other != name ==> Position(r.value.holdings, other) == Position(b.holdings, other)
    ensures r.Ok? ==> r.value.strategies == b.strategies[key := series]
    ensures r.Ok? ==> Ok(r.value.holdings) == Added(b.holdings, name, n, price, cls, Some(today))
  {
    match Added(b.holdings, name, n, price, cls, Some(today))
    case Fail(e) => Fail(e)
    case Ok(hs) => Ok(Books(hs, Debit(b.cash, cost, fee), b.strategies[key := series]))
  }

  /** `buy` for stocks and crypto: price, sizing and portfolio value must all be
      available; the purchase happens only inside the maximum allocation and the
      buying power, and then pays the cost and the fee, merges the units into the
      ledger and records the strategy's series. A refused purchase changes nothing. */
  function BuyShares(stock: string, s: HoldingsStrategy, b: Books, fee: real, today: Date, time: string)
    : (r: Result<(bool, Books)>)
    requires ValidDate(today)
    ensures var order := StockOrder(s, b.holdings, b.cash, b.strategies, Ordinal(today), time);
            var value := BooksValue(b, Ordinal(today), time);
            (order.Fail? ==> r == Fail(order.failure)) &&
            (order.Ok? && value.Fail? ==> r == Fail(value.failure))
    ensures var order := StockOrder(s, b.holdings, b.cash, b.strategies, Ordinal(today), time);
            var value := BooksValue(b, Ordinal(today), time);
            order.Ok? && value.Ok? ==>
              r.Ok? && (r.value.0 <==> BuyAllowed(AllocationValue(b.holdings, stock, order.value.price),
                                                  order.value.quote.total, s.maxAllocation, value.value, b.cash))
    ensures r.Ok? && !r.value.0 ==> r.value.1 == b
    ensures r.Ok? && r.value.0 ==>
              var o := StockOrder(s, b.holdings, b.cash, b.strategies, Ordinal(today), time).value;
              var value := BooksValue(b, Ordinal(today), time);
              value.Ok? && BuyAllowed(AllocationValue(b.holdings, stock, o.price), o.quote.total,
                                      s.maxAllocation, value.value, b.cash) &&
              Ok(r.value.1) == Bought(b, stock, o.quote.shares, o.price, s.assetClass, today,
                                      o.quote.total, fee, s.assetName, s.data)
  {
    var day := Ordinal(today);
    match StockOrder(s, b.holdings, b.cash, b.strategies, day, time)
    case Fail(e) => Fail(e)
    case Ok(o) =>
      match BooksValue(b, day, time)
      case Fail(e) => Fail(e)
      case Ok(v) =>
        if !BuyAllowed(AllocationValue(b.holdings, stock, o.price), o.quote.total, s.maxAllocation, v, b.cash) then
          Ok((false, b))
        else
          match Bought(b, stock, o.quote.shares, o.price, s.assetClass, today, o.quote.total, fee, s.assetName, s.data)
          case Fail(e) => Fail(e)
          case Ok(after) => Ok((true, after))
  }

  /** `buy_options`: an error before its `try` stops the run; no option frame, an
      unpriceable contract or an unavailable portfolio value inside the `try` only
      refuses the purchase. Once the cost is paid the purchase counts, even when the
      ledger then rejects the option's name (the `finally` returns early). */
  function BuyOptionsOutcome(stock: string, s: HoldingsStrategy, b: Books, fee: real, today: Date,
                             time: string, fetch: (string, Date) -> Option<PriceSeries>)
    : (r: Result<(bool, Books)>)
    requires ValidDate(today)
    ensures var order := OptionOrder(stock, s, today, time, fetch);
            (order.Fail? <==> r.Fail?) && (order.Fail? ==> r == Fail(order.failure)) &&
            (order == Ok(None) ==> r == Ok((false, b)))
    ensures var order := OptionOrder(stock, s, today, time, fetch);
            var value := BooksValue(b, Ordinal(today), time);
            order.Ok? && order.value.Some? ==>
              var leg := order.value.value;
              r.Ok? && (r.value.0 <==> value.Ok? &&
                                       BuyAllowed(AllocationValue(b.holdings, stock, leg.underlyingPrice),
                                                  ContractCost(leg.contracts, leg.price), s.maxAllocation,
                                                  value.value, b.cash))
    ensures r.Ok? && !r.value.0 ==> r.value.1 == b
    ensures r.Ok? && r.value.0 ==>
              var leg := OptionOrder(stock, s, today, time, fetch).value.value;
              var total := ContractCost(leg.contracts, leg.price);
              var value := BooksValue(b, Ordinal(today), time);
              var bought := Bought(b, leg.symbol, leg.contracts, leg.price, Options, today,
                                   total, fee, leg.symbol, leg.series);
              value.Ok? && BuyAllowed(AllocationValue(b.holdings, stock, leg.underlyingPrice), total,
                                      s.maxAllocation, value.value, b.cash) &&
              r.value.1 == (if bought.Ok? then bought.value else b.(cash := Debit(b.cash, total, fee)))
  {
    var day := Ordinal(today);
    match OptionOrder(stock, s, today, time, fetch)
    case Fail(e) => Fail(e)
    case Ok(None) => Ok((false, b))
    case Ok(Some(leg)) =>
      var total := ContractCost(leg.contracts, leg.price);
      match BooksValue(b, day, time)
      case Fail(_) => Ok((false, b))
      case Ok(v) =>
        if !BuyAllowed(AllocationValue(b.holdings, stock, leg.underlyingPrice), total, s.maxAllocation, v, b.cash) then
          Ok((false, b))
        else
          match Bought(b, leg.symbol, leg.contracts, leg.price, Options, today, total, fee, leg.symbol, leg.series)
          case Fail(_) => Ok((true, b.(cash := Debit(b.cash, total, fee))))
          case Ok(after) => Ok((true, after))
  }

  /** The units `sell` gives up and what they fetch: for stocks the whole shares
      that `selling_allocation` of the position's value buys back at the last price
      (floor division), for crypto the exact fraction. */
  function SaleQuote(cls: AssetClass, fraction: real, current: real, lastPrice: real): (r: Result<Quote>)
    ensures r.Ok? <==> (cls == Stocks || cls == Crypto) && lastPrice != 0.0
    ensures cls != Stocks && cls != Crypto ==> r == Fail(InvalidAssetType)
    ensures (cls == Stocks || cls == Crypto) && lastPrice == 0.0 ==> r == Fail(DivisionByZero)
    ensures cls == Stocks && r.Ok? ==>
              r.value.shares.Floor as real == r.value.shares && r.value.total == r.value.shares * lastPrice
    ensures cls == Stocks && r.Ok? && lastPrice > 0.0 ==>
              r.value.total <= fraction * current < r.value.total + lastPrice
    ensures cls == Crypto && r.Ok? ==>
              r.value.total == fraction * current && r.value.shares * lastPrice == r.value.total
  {
    if cls != Stocks && cls != Crypto then Fail(InvalidAssetType)
    else if lastPrice == 0.0 then Fail(DivisionByZero)
    else if cls == Stocks then
      var shares := ((fraction * current) / lastPrice).Floor as real;
      FloorShares(fraction * current, lastPrice);
      Ok(Quote(shares, shares * lastPrice))
    else Ok(Quote((fraction * current) / lastPrice, fraction * current))
  }

  /** A sale the guard allowed: the proceeds less the fee join the cash and the
      units leave the ledger; selling a name not held stops the run. */
  function Sold(b: Books, name: string, n: real, cls: AssetClass, proceeds: real, fee: real): (r: Result<Books>)
    ensures r.Ok? <==> Subtracted(b.holdings, name, n, cls).Ok?
    ensures IndexOf(b.holdings, name).None? ==> r.Fail?
    ensures r.Ok? ==> r.value.cash - proceeds + fee == b.cash && r.value.strategies == b.strategies
    ensures r.Ok? ==> Position(r.value.holdings, name) == Position(b.holdings, name) - n
    ensures r.Ok? ==> forall other :: other != name ==> Position(r.value.holdings, other) == Position(b.holdings, other)
    ensures r.Ok? ==> Ok(r.value.holdings) == Subtracted(b.holdings, name, n, cls)
  {
    match Subtracted(b.holdings, name, n, cls)
    case Fail(e) => Fail(e)
    case Ok(hs) => Ok(Books(hs, Credit(b.cash, proceeds, fee), b.strategies))
  }

  /** The guard of `sell`: the position keeps at least its minimum share of the
      portfolio value. */
  predicate SellAllowed(current: real, proceeds: real, minAllocation: real, value: real) {
    !(current - proceeds < minAllocation * value)
  }

  /** `sell` for stocks and crypto: the sale goes ahead unless it would take the
      position below its minimum share of the portfolio value. */
  function SellShares(stock: string, s: HoldingsStrategy, b: Books, fee: real, day: int, time: string)
    : (r: Result<(bool, Books)>)
    ensures s.Price(day, time).Fail? ==> r == Fail(PriceUnavailable)
    ensures s.Price(day, time).Ok? ==>
              var last := s.Price(day, time).value;
              var current := AllocationValue(b.holdings, stock, last);
              var q := SaleQuote(s.assetClass, s.sellingAllocation, current, last);
              var value := BooksValue(b, day, time);
              (q.Fail? ==> r == Fail(q.failure)) &&
              (q.Ok? && value.Fail? ==> r == Fail(value.failure)) &&
              (q.Ok? && value.Ok? && !SellAllowed(current, q.value.total, s.minAllocation, value.value) ==>
                 r == Ok((false, b))) &&
              (q.Ok? && value.Ok? && SellAllowed(current, q.value.total, s.minAllocation, value.value) ==>
                 var sold := Sold(b, stock, q.value.shares, s.assetClass, q.value.total, fee);
                 (sold.Fail? ==> r == Fail(sold.failure)) && (sold.Ok? ==> r.Ok? && r.value.0))
    ensures r.Ok? && !r.value.0 ==> r.value.1 == b
    ensures r.Ok? && r.value.0 ==>
              var last := s.Price(day, time).value;
              var current := AllocationValue(b.holdings, stock, last);
              var q := SaleQuote(s.assetClass, s.sellingAllocation, current, last);
              var value := BooksValue(b, day, time);
              q.Ok? && value.Ok? && SellAllowed(current, q.value.total, s.minAllocation, value.value) &&
              Ok(r.value.1) == Sold(b, stock, q.value.shares, s.assetClass, q.value.total, fee)
  {
    match s.Price(day, time)
    case Fail(e) => Fail(e)
    case Ok(last) =>
      var current := AllocationValue(b.holdings, stock, last);
      match SaleQuote(s.assetClass, s.sellingAllocation, current, last)
      case Fail(e) => Fail(e)
      case Ok(q) =>
        match BooksValue(b, day, time)
        case Fail(e) => Fail(e)
        case Ok(v) =>
          if !SellAllowed(current, q.total, s.minAllocation, v) then Ok((false, b))
          else
            match Sold(b, stock, q.shares, s.assetClass, q.total, fee)
            case Fail(e) => Fail(e)
            case Ok(after) => Ok((true, after))
  }

  lemma SignOfProduct(a: real, k: real)
    requires a * k >= 0.0 && k > 0.0
    ensures a >= 0.0
  {
  }

  lemma PositiveFactor(a: real, k: real)
    requires a * k > 0.0 && k > 0.0
    ensures a > 0.0
  {
  }

  lemma ScaleDown(x: real, y: real, k: real)
    requires x * k <= y * k && k > 0.0
    ensures x <= y
  {
    assert (y - x) * k == y * k - x * k;
    SignOfProduct(y - x, k);
  }

  lemma FractionAtMost(fraction: real, v: real)
    requires 0.0 <= fraction <= 1.0 && v >= 0.0
    ensures 0.0 <= fraction * v <= v
  {
    assert (1.0 - fraction) * v >= 0.0;
    assert (1.0 - fraction) * v == v - fraction * v;
  }

  lemma FractionWithin(fraction: real, v: real, bound: real)
    requires 0.0 <= fraction <= 1.0 && 0.0 <= v <= bound
    ensures 0.0 <= fraction * v <= bound
  {
    FractionAtMost(fraction, v);
  }

  lemma ShareCountNonNegative(shares: real, k: real)
    requires shares.Floor as real == shares && shares * k + k > 0.0 && k > 0.0
    ensures shares >= 0.0
  {
    assert (shares + 1.0) * k == shares * k + k;
    PositiveFactor(shares + 1.0, k);
  }

  lemma ProductNonNegative(a: real, b: real)
    requires a >= 0.0 && b >= 0.0
    ensures a * b >= 0.0
  {
  }

  /** Whole shares bought back with a budget of at most `held` shares' worth, at a
      positive price, number between nothing and `held`. */
  lemma SharesWithinBudget(fraction: real, current: real, held: real, lastPrice: real)
    requires lastPrice > 0.0 && 0.0 <= fraction * current <= held * lastPrice
    ensures var q := SaleQuote(Stocks, fraction, current, lastPrice);
            q.Ok? && 0.0 <= q.value.shares <= held
  {
    var q := SaleQuote(Stocks, fraction, current, lastPrice).value;
    assert q.shares * lastPrice <= held * lastPrice;
    ScaleDown(q.shares, held, lastPrice);
    ShareCountNonNegative(q.shares, lastPrice);
  }

  /** A stock sale with a selling allocation between 0 and 1, at a positive price,
      of a position that is not short, never gives up more shares than are held. */
  lemma SaleWithinPosition(hs: seq<Holding>, stock: string, fraction: real, lastPrice: real)
    requires 0.0 <= fraction <= 1.0 && lastPrice > 0.0 && Position(hs, stock) >= 0.0
    ensures SaleFits(fraction, AllocationValue(hs, stock, lastPrice), Position(hs, stock), lastPrice)
  {
    var held, current := Position(hs, stock), AllocationValue(hs, stock, lastPrice);
    if ContainsUnderlying(hs, stock) {
      assert current == held * lastPrice;
    } else {
      assert current == 0.0;
    }
    SaleWithinHeld(fraction, current, held, lastPrice);
  }

  lemma SaleWithinHeld(fraction: real, current: real, held: real, lastPrice: real)
    requires 0.0 <= fraction <= 1.0 && lastPrice > 0.0 && held >= 0.0
    requires current == 0.0 || current == held * lastPrice
    ensures SaleFits(fraction, current, held, lastPrice)
  {
    ProductNonNegative(held, lastPrice);
    SaleWithinBound(fraction, current, held, lastPrice);
  }

  /** Selling `fraction` of a position worth `current` at `lastPrice` gives up
      between nothing and `held` units. */
  predicate SaleFits(fraction: real, current: real, held: real, lastPrice: real) {
    var q := SaleQuote(Stocks, fraction, current, lastPrice);
    q.Ok? && 0.0 <= q.value.shares <= held
  }

  lemma SaleWithinBound(fraction: real, current: real, held: real, lastPrice: real)
    requires 0.0 <= fraction <= 1.0 && lastPrice > 0.0 && 0.0 <= current <= held * lastPrice
    ensures SaleFits(fraction, current, held, lastPrice)
  {
    FractionWithin(fraction, current, held * lastPrice);
    SharesWithinBudget(fraction, current, held, lastPrice);
  }

  /** What closing `contracts` option contracts at `price` per share fetches, as
      `sell_option` computes it: the per-share price times the contracts, without
      the 100 shares per contract that `buy_options` charges. */
  function CloseProceedsAsWritten(contracts: real, price: real): real {
    contracts * price
  }

  /** What closing `contracts` option contracts at `price` per share fetches: 100
      shares per contract, as `buy_options` and `liquidate` price them. */
  function CloseProceeds(contracts: real, price: real): (r: real)
    ensures r == ContractCost(contracts, price)
  {
    100.0 * contracts * price
  }

  /** Opening an option position and closing it at the same price costs exactly
      the two fees. */
  lemma OptionRoundTrip(cash: real, contracts: real, price: real, fee: real)
    ensures Credit(Debit(cash, ContractCost(contracts, price), fee), CloseProceeds(contracts, price), fee)
            == cash - 2.0 * fee
  {
    RoundTripCostsTwoFees(cash, ContractCost(contracts, price), fee);
  }

  /** As written, buying one contract and selling it back at the same price loses
      99 times that price on top of the two fees (198.00 at a price of 2.00). */
  lemma OptionRoundTripAsWrittenLoses(cash: real, price: real, fee: real)
    ensures Credit(Debit(cash, ContractCost(1.0, price), fee), CloseProceedsAsWritten(1.0, price), fee)
              == cash - 2.0 * fee - 99.0 * price
  {
  }

  /** `sell_option` once a flagged option `name` is chosen: its series must be
      recorded and the option held; a short position closes with the selling
      allocation negated; the proceeds arrive and the contracts leave the ledger. */
  function SellOptionOutcome(s: HoldingsStrategy, b: Books, fee: real, day: int, time: string, name: string)
    : (r: Result<Books>)
    ensures name !in b.strategies ==> r == Fail(MissingSeries(name))
    ensures name in b.strategies && IndexOf(b.holdings, name).None? ==> r == Fail(NotHeld(name))
    ensures name in b.strategies && IndexOf(b.holdings, name).Some? ==>
              var h := b.holdings[IndexOf(b.holdings, name).value];
              var sold := if h.numAssets < 0.0 then -s.sellingAllocation else s.sellingAllocation;
              var price := Resolve(b.strategies[name], day, time);
              (price.Fail? ==> r == Fail(price.failure)) &&
              (price.Ok? ==> (r.Ok? <==> Subtracted(b.holdings, name, sold, h.assetClass).Ok?))
    ensures r.Ok? ==>
              var h := b.holdings[IndexOf(b.holdings, name).value];
              var sold := if h.numAssets < 0.0 then -s.sellingAllocation else s.sellingAllocation;
              var price := Resolve(b.strategies[name], day, time);
              price.Ok? && Ok(r.value) == Sold(b, name, sold, h.assetClass, CloseProceeds(sold, price.value), fee)
  {
    if name !in b.strategies then Fail(MissingSeries(name))
    else match IndexOf(b.holdings, name)
      case None => Fail(NotHeld(name))
      case Some(i) =>
        var h := b.holdings[i];
        var sold := if h.numAssets < 0.0 then -s.sellingAllocation else s.sellingAllocation;
        match Resolve(b.strategies[name], day, time)
        case Fail(e) => Fail(e)
        case Ok(price) => Sold(b, name, sold, h.assetClass, CloseProceeds(sold, price), fee)
  }

  /** What an option left open at expiry pays: 100 shares per contract at the
      expiry close, or nothing when the contract closed at the one-cent floor. */
  function ExpiryProceeds(contracts: real, lastPrice: real): (r: real)
    ensures lastPrice == 0.01 ==> r == 0.0
    ensures lastPrice != 0.01 ==> r == ContractCost(contracts, lastPrice)
  {
    if lastPrice == 0.01 then 0.0 else 100.0 * contracts * lastPrice
  }

  /** `liquidate`: the option at index `i` is closed at its expiry-day close and
      leaves the ledger entirely. */
  function Liquidated(b: Books, i: nat, fee: real, expiration: Date): (r: Result<Books>)
    requires i < |b.holdings| && UniqueNames(b.holdings) && ValidDate(expiration)
    ensures b.holdings[i].name !in b.strategies ==> r == Fail(MissingSeries(b.holdings[i].name))
    ensures b.holdings[i].name in b.strategies ==>
              var price := Resolve(b.strategies[b.holdings[i].name], Ordinal(expiration), "Close");
              (price.Fail? ==> r == Fail(price.failure)) &&
              (price.Ok? ==> (r.Ok? <==> ParseExpiration(b.holdings[i].name).Some?))
    ensures r.Ok? ==> r.value.holdings == b.holdings[..i] + b.holdings[i + 1..]
    ensures r.Ok? ==>
              var price := Resolve(b.strategies[b.holdings[i].name], Ordinal(expiration), "Close");
              price.Ok? && r.value.cash == Credit(b.cash, ExpiryProceeds(b.holdings[i].numAssets, price.value), fee) &&
              r.value.strategies == b.strategies
  {
    var h := b.holdings[i];
    if h.name !in b.strategies then Fail(MissingSeries(h.name))
    else match Resolve(b.strategies[h.name], Ordinal(expiration), "Close")
      case Fail(e) => Fail(e)
      case Ok(price) =>
        IndexOfUnique(b.holdings, i);
        Sold(b, h.name, h.numAssets, Options, ExpiryProceeds(h.numAssets, price), fee)
  }

  /** How `sell_option` merges the sets its selling conditions flagged: the first
      non-empty accumulator is taken whole, each later set is intersected with it,
      and an empty accumulator starts over from the next set. */
  function Combine(readings: seq<set<string>>): (r: set<string>)
    ensures forall nm :: nm in r ==> exists k :: 0 <= k < |readings| && nm in readings[k]
  {
    if readings == [] then {}
    else
      var earlier := readings[..|readings| - 1];
      var acc := Combine(earlier);
      var x := readings[|readings| - 1];
      assert forall k :: 0 <= k < |earlier| ==> earlier[k] == readings[k];
      if |acc| == 0 then x else acc * x
  }

  /** The names every condition flagged. */
  function Meet(readings: seq<set<string>>): (r: set<string>)
    requires |readings| > 0
    ensures forall nm :: nm in r <==> forall k :: 0 <= k < |readings| ==> nm in readings[k]
  {
    set nm | nm in readings[0] && forall k :: 0 <= k < |readings| ==> nm in readings[k]
  }

  /** When some name is flagged by every condition, the merge is exactly the
      intersection of all the flagged sets. */
  lemma {:induction false} CombineIsMeet(readings: seq<set<string>>)
    requires |readings| > 0 && Meet(readings) != {}
    ensures Combine(readings) == Meet(readings)
  {
    var n := |readings|;
    var earlier := readings[..n - 1];
    var x := readings[n - 1];
    if n == 1 {
      assert Combine(earlier) == {};
      assert Meet(readings) == x;
    } else {
      var nm :| nm in Meet(readings);
      assert nm in Meet(earlier);
      CombineIsMeet(earlier);
      assert Meet(readings) == Meet(earlier) * x;
    }
  }

  /** The merge is not the intersection when the flagged sets run dry part way:
      {A}, {B}, {A} merge to {A} although no name was flagged by all three. */
  lemma CombineStartsOver()
    ensures Combine([{"A"}, {"B"}, {"A"}]) == {"A"}
    ensures Meet([{"A"}, {"B"}, {"A"}]) == {}
  {
    var rs: seq<set<string>> := [{"A"}, {"B"}, {"A"}];
    assert rs[..2][..1] == [{"A"}];
    assert rs[..2] == [{"A"}, {"B"}];
    assert Combine([{"A"}]) == {"A"} by {
      assert [{"A"}][..0] == [];
    }
    assert {"A"} * {"B"} == {};
    assert "A" !in Meet(rs) by { assert "A" !in rs[1]; }
  }

  /** The sell set of every condition, in order. */
  ghost function SellSets(conds: seq<Condition>): (r: seq<set<string>>)
    reads conds
    ensures |r| == |conds| && forall k :: 0 <= k < |conds| ==> r[k] == conds[k].holdingsToSell
  {
    if conds == [] then [] else SellSets(conds[..|conds| - 1]) + [conds[|conds| - 1].holdingsToSell]
  }

  /** The sets the conditions hand over as `sell_option` walks them, given each
      condition's sell set beforehand: only conditions that keep a sell set take
      part, and a condition met a second time has already been cleared. */
  function Readings(conds: seq<Condition>, sets: seq<set<string>>): seq<set<string>>
    requires |sets| == |conds|
  {
    if conds == [] then []
    else
      var c := conds[|conds| - 1];
      var earlier := conds[..|conds| - 1];
      Readings(earlier, sets[..|conds| - 1]) +
        (if c.HasHoldingsToSell() then [if c in earlier then {} else sets[|conds| - 1]] else [])
  }

  /** The first half of `sell_option`: merge and clear the conditions' sell sets. */
  method CollectHoldingsToSell(conds: seq<Condition>) returns (all: set<string>)
    modifies conds
    ensures all == Combine(Readings(conds, old(SellSets(conds))))
    ensures forall k :: 0 <= k < |conds| ==>
              conds[k].holdingsToSell == (if conds[k].HasHoldingsToSell() then {} else old(conds[k].holdingsToSell))
    ensures forall k :: 0 <= k < |conds| ==> conds[k].window == old(conds[k].window)
  {
    ghost var sets := SellSets(conds);
    all := {};
    var i := 0;
    while i < |conds|
      invariant 0 <= i <= |conds|
      invariant Collected(conds, sets, i, all)
      invariant forall k :: 0 <= k < |conds| ==> conds[k].window == old(conds[k].window)
    {
      all := VisitCondition(conds, sets, i, all);
      i := i + 1;
    }
    assert conds[..i] == conds;
    assert sets[..i] == sets;
    assert forall k :: 0 <= k < |conds| ==> conds[k] in conds[..i];
  }

  /** The state of the merge once the first `i` conditions are visited. */
  ghost predicate Collected(conds: seq<Condition>, sets: seq<set<string>>, i: nat, all: set<string>)
    reads conds
  {
    |sets| == |conds| && i <= |conds| &&
    all == Combine(Readings(conds[..i], sets[..i])) &&
    (forall k :: 0 <= k < i && conds[k].HasHoldingsToSell() ==> conds[k].holdingsToSell == {}) &&
    (forall k :: 0 <= k < |conds| && conds[k] !in conds[..i] ==> conds[k].holdingsToSell == sets[k]) &&
    (forall k :: 0 <= k < |conds| && !conds[k].HasHoldingsToSell() ==> conds[k].holdingsToSell == sets[k])
  }

  /** One turn of the merge loop. */
  method VisitCondition(conds: seq<Condition>, ghost sets: seq<set<string>>, i: nat, all: set<string>)
    returns (all': set<string>)
    requires i < |conds| && Collected(conds, sets, i, all)
    modifies conds[i]
    ensures Collected(conds, sets, i + 1, all')
    ensures forall k :: 0 <= k < |conds| ==> conds[k].window == old(conds[k].window)
  {
    var c := conds[i];
    ghost var before := Readings(conds[..i], sets[..i]);
    ghost var reading := if c in conds[..i] then {} else sets[i];
    ReadingsStep(conds, sets, i);
    PrefixMembership(conds, i);
    if c.HasHoldingsToSell() {
      assert c.holdingsToSell == reading;
      CombineStep(before, reading);
      var x := c.holdingsToSell;
      if |all| == 0 {
        all' := x;
      } else {
        all' := all * x;
      }
      c.ClearHoldingsToSell();
      assert Readings(conds[..i + 1], sets[..i + 1]) == before + [reading];
    } else {
      all' := all;
      assert Readings(conds[..i + 1], sets[..i + 1]) == before + [];
      assert before + [] == before;
    }
  }

  lemma ReadingsStep(conds: seq<Condition>, sets: seq<set<string>>, i: nat)
    requires |sets| == |conds| && i < |conds|
    ensures Readings(conds[..i + 1], sets[..i + 1]) == Readings(conds[..i], sets[..i]) +
              (if conds[i].HasHoldingsToSell() then [if conds[i] in conds[..i] then {} else sets[i]] else [])
  {
    assert conds[..i + 1][..i] == conds[..i];
    assert sets[..i + 1][..i] == sets[..i];
  }

  lemma CombineStep(rs: seq<set<string>>, x: set<string>)
    ensures Combine(rs + [x]) == if |Combine(rs)| == 0 then x else Combine(rs) * x
  {
    assert (rs + [x])[..|rs|] == rs;
  }

  lemma PrefixMembership(conds: seq<Condition>, i: nat)
    requires i < |conds|
    ensures forall c :: c in conds[..i + 1] <==> c in conds[..i] || c == conds[i]
  {
    assert conds[..i + 1] == conds[..i] + [conds[i]];
  }

  /** The flagged names whose underlying is `stock`. */
  function FlaggedFor(all: set<string>, stock: string): (r: set<string>)
    ensures forall nm :: nm in r <==> nm in all && UnderlyingName(nm) == stock
  {
    set nm | nm in all && UnderlyingName(nm) == stock
  }

  /** How a method's result and new books follow from an outcome: a failure leaves
      the books as they were. */
  predicate Settles(r: Result<bool>, out: Result<(bool, Books)>, before: Books, after: Books) {
    match out
    case Fail(e) => r == Fail(e) && after == before
    case Ok(o) => r == Ok(o.0) && after == o.1
  }

  function Completed(out: Result<Books>): Result<(bool, Books)> {
    match out
    case Fail(e) => Fail(e)
    case Ok(b) => Ok((true, b))
  }

  /** How `sell_option` ends, given the books and the conditions' sell sets before
      it: when no flagged option is on `stock` nothing is sold, and when some are,
      `sold` is one of them and the books follow `SellOptionOutcome`. The
      underlying's price only appears in the log lines, so a missing one changes
      nothing. */
  ghost predicate OptionSaleSettles(r: Result<bool>, sold: string, stock: string, s: HoldingsStrategy,
                                    before: Books, after: Books, fee: real, day: int, time: string,
                                    sets: seq<set<string>>)
  {
    if |sets| != |s.sellingConditions| then false
    else
      var flagged := FlaggedFor(Combine(Readings(s.sellingConditions, sets)), stock);
      if flagged == {} then r == Ok(false) && after == before
      else sold in flagged && Settles(r, Completed(SellOptionOutcome(s, before, fee, day, time, sold)), before, after)
  }

  class Portfolio {
    var holdings: seq<Holding>
    var buyingPower: real
    var initialValue: real
    const fees: real
    var strategies: map<string, PriceSeries>

    /** Holdings are merged by name, so no name occurs twice. */
    ghost predicate Valid()
      reads this
    {
      UniqueNames(holdings)
    }

    constructor(initialCash: real, fees: real)
      ensures Valid()
      ensures holdings == [] && buyingPower == initialCash && initialValue == initialCash
      ensures this.fees == fees && strategies == map[]
    {
      holdings := [];
      buyingPower := initialCash;
      initialValue := initialCash;
      this.fees := fees;
      strategies := map[];
    }

    function Value(day: int, time: string): Result<real>
      reads this
    {
      ValueOf(holdings, buyingPower, strategies, day, time)
    }

    method DecreaseBuyingPower(cost: real)
      modifies this
      ensures buyingPower == Debit(old(buyingPower), cost, fees)
      ensures holdings == old(holdings) && strategies == old(strategies) && initialValue == old(initialValue)
    {
      buyingPower := buyingPower - (cost + fees);
    }

    method IncreaseBuyingPower(gain: real)
      modifies this
      ensures buyingPower == Credit(old(buyingPower), gain, fees)
      ensures holdings == old(holdings) && strategies == old(strategies) && initialValue == old(initialValue)
    {
      buyingPower := buyingPower + (gain - fees);
    }

    /** `add_holdings`, with a holding that reaches zero deleted (see `AddedAsWritten`
        for the division the source performs first). */
    method AddHoldings(name: string, n: real, price: real, cls: AssetClass, date: Option<Date>)
      returns (r: Result<bool>)
      requires Valid()
      modifies this
      ensures Valid()
      ensures r.Ok? <==> Added(old(holdings), name, n, price, cls, date).Ok?
      ensures r.Ok? ==> holdings == Added(old(holdings), name, n, price, cls, date).value
      ensures r.Fail? ==> holdings == old(holdings)
      ensures buyingPower == old(buyingPower) && strategies == old(strategies) && initialValue == old(initialValue)
    {
      var made := MakeHolding(name, n, price, cls, date);
      if made.Fail? {
        return Fail(made.failure);
      }
      AddedKeepsNamesUnique(holdings, name, n, price, cls, date);
      ghost var merged := Added(holdings, name, n, price, cls, date).value;
      var at := IndexOf(holdings, name);
      if at.None? {
        holdings := holdings + [made.value];
      } else {
        var i := at.value;
        assert merged == MergedAt(holdings, i, n, price);
        var q := holdings[i].numAssets + n;
        if q == 0.0 {
          holdings := holdings[..i] + holdings[i + 1..];
        } else {
          holdings := holdings[i := holdings[i].(numAssets := q,
                       initialPrice := ReweightedPrice(holdings[i].numAssets, holdings[i].initialPrice, n, price))];
        }
      }
      assert holdings == merged;
      r := Ok(true);
    }

    /** `subtract_holdings`; selling a name not held is the fatal `log_error`, and the
        ledger is left as it was. */
    method SubtractHoldings(name: string, n: real, cls: AssetClass) returns (r: Result<bool>)
      requires Valid()
      modifies this
      ensures Valid()
      ensures r.Ok? <==> Subtracted(old(holdings), name, n, cls).Ok?
      ensures r.Ok? ==> holdings == Subtracted(old(holdings), name, n, cls).value
      ensures r.Fail? ==> holdings == old(holdings) && Subtracted(old(holdings), name, n, cls) == Fail(r.failure)
      ensures MakeHolding(name, n, 0.0, cls, None).Ok? && IndexOf(old(holdings), name).None? ==>
                r == Fail(NotHeld(name))
      ensures buyingPower == old(buyingPower) && strategies == old(strategies) && initialValue == old(initialValue)
    {
      var made := MakeHolding(name, n, 0.0, cls, None);
      if made.Fail? {
        return Fail(made.failure);
      }
      var at := IndexOf(holdings, name);
      if at.None? {
        return Fail(NotHeld(name));
      }
      SubtractedKeepsNamesUnique(holdings, name, n, cls);
      var i := at.value;
      var q := holdings[i].numAssets - n;
      if q == 0.0 {
        holdings := holdings[..i] + holdings[i + 1..];
      } else {
        holdings := holdings[i := holdings[i].(numAssets := q)];
      }
      r := Ok(true);
    }

    /** `get_portfolio_value`: the loop over the holdings, stopping at the first one
        whose series is missing or cannot be priced. */
    method GetPortfolioValue(day: int, time: string) returns (r: Result<real>)
      ensures r == Value(day, time)
    {
      var acc := 0.0;
      var i := 0;
      while i < |holdings|
        invariant 0 <= i <= |holdings|
        invariant var v := HoldingsValue(holdings[..i], strategies, day, time); v.Ok? && v.value == acc
      {
        var h := holdings[i];
        if h.name !in strategies {
          ValueFailsAt(holdings, i, strategies, day, time);
          return Fail(MissingSeries(h.name));
        }
        if h.assetClass == Crypto {
          ValueFailsAt(holdings, i, strategies, day, time);
          return Fail(PriceUnavailable);
        }
        var price := Resolve(strategies[h.name], day, time);
        if price.Fail? {
          ValueFailsAt(holdings, i, strategies, day, time);
          return Fail(price.failure);
        }
        var p := price.value;
        if h.assetClass == Options {
          p := p * 100.0;
        }
        WorthAtUnitPrice(h, price.value, p);
        HoldingValuePriced(h, strategies, day, time);
        ValueStep(holdings, i, strategies, day, time, acc);
        acc := acc + h.numAssets * p;
        i := i + 1;
      }
      assert holdings[..i] == holdings;
      r := Ok(buyingPower + acc);
    }

    /** `is_profitable`: worth more than the initial value. */
    method IsProfitable(day: int, time: string) returns (r: Result<bool>)
      ensures r.Ok? <==> Value(day, time).Ok?
      ensures r.Ok? ==> (r.value <==> Value(day, time).value > initialValue)
      ensures r.Fail? ==> r.failure == Value(day, time).failure
    {
      var v := GetPortfolioValue(day, time);
      if v.Fail? {
        return Fail(v.failure);
      }
      r := Ok(v.value > initialValue);
    }

    /** `contains`: some holding has `asset` as its underlying. */
    method Contains(asset: string) returns (b: bool)
      ensures b <==> ContainsUnderlying(holdings, asset)
    {
      var i := 0;
      while i < |holdings|
        invariant 0 <= i <= |holdings|
        invariant forall k :: 0 <= k < i ==> UnderlyingName(holdings[k].name) != asset
      {
        if UnderlyingName(holdings[i].name) == asset {
          return true;
        }
        i := i + 1;
      }
      b := false;
    }

    /** `get_current_allocation`. */
    method GetCurrentAllocation(asset: string, lastPrice: real) returns (r: real)
      ensures r == AllocationValue(holdings, asset, lastPrice)
    {
      var held := Contains(asset);
      if !held {
        return 0.0;
      }
      var acc := 0.0;
      var i := 0;
      while i < |holdings|
        invariant 0 <= i <= |holdings|
        invariant acc == Position(holdings[..i], asset) * lastPrice
      {
        assert holdings[..i + 1][..i] == holdings[..i];
        if holdings[i].name == asset {
          acc := acc + holdings[i].numAssets * lastPrice;
        }
        i := i + 1;
      }
      assert holdings[..i] == holdings;
      r := acc;
    }

    /** The holdings, cash and series, as one value. */
    function AsBooks(): Books
      reads this
    {
      Books(holdings, buyingPower, strategies)
    }

    /** `buy`: options go to `buy_options`; anything else is sized by `shares_to_buy`. */
    method Buy(stock: string, s: HoldingsStrategy, today: Date, time: string,
               fetch: (string, Date) -> Option<PriceSeries>) returns (r: Result<bool>)
      requires Valid() && ValidDate(today)
      modifies this
      ensures Valid() && initialValue == old(initialValue)
      ensures s.assetClass == Options ==>
                Settles(r, BuyOptionsOutcome(stock, s, old(AsBooks()), fees, today, time, fetch), old(AsBooks()), AsBooks())
      ensures s.assetClass != Options ==>
                Settles(r, BuyShares(stock, s, old(AsBooks()), fees, today, time), old(AsBooks()), AsBooks())
    {
      if s.assetClass == Options {
        r := BuyOptions(stock, s, today, time, fetch);
        return;
      }
      var day := Ordinal(today);
      var last := s.Price(day, time);
      if last.Fail? {
        return Fail(last.failure);
      }
      var value := GetPortfolioValue(day, time);
      var quote := SharesToBuy(s.assetClass, s.buyingAllocation, s.basis, value, buyingPower, last.value);
      if quote.Fail? {
        return Fail(quote.failure);
      }
      var allocation := GetCurrentAllocation(stock, last.value);
      if value.Fail? {
        return Fail(value.failure);
      }
      if !BuyAllowed(allocation, quote.value.total, s.maxAllocation, value.value, buyingPower) {
        return Ok(false);
      }
      var added := AddHoldings(stock, quote.value.shares, last.value, s.assetClass, Some(today));
      DecreaseBuyingPower(quote.value.total);
      strategies := strategies[s.assetName := s.data];
      r := Ok(true);
    }

    /** `buy_options`. */
    method BuyOptions(stock: string, s: HoldingsStrategy, today: Date, time: string,
                      fetch: (string, Date) -> Option<PriceSeries>) returns (r: Result<bool>)
      requires Valid() && ValidDate(today)
      modifies this
      ensures Valid() && initialValue == old(initialValue)
      ensures Settles(r, BuyOptionsOutcome(stock, s, old(AsBooks()), fees, today, time, fetch), old(AsBooks()), AsBooks())
    {
      var order := OptionOrder(stock, s, today, time, fetch);
      if order.Fail? {
        return Fail(order.failure);
      }
      if order.value.None? {
        return Ok(false);
      }
      var leg := order.value.value;
      var total := ContractCost(leg.contracts, leg.price);
      var allocation := GetCurrentAllocation(stock, leg.underlyingPrice);
      var value := GetPortfolioValue(Ordinal(today), time);
      if value.Fail? || !BuyAllowed(allocation, total, s.maxAllocation, value.value, buyingPower) {
        return Ok(false);
      }
      PayForContracts(leg, total, today);
      r := Ok(true);
    }

    /** The end of `buy_options` once the guard allows the purchase: the cost and the
        fee are paid, then the contracts join the ledger, and the series is recorded
        only when the ledger accepted the option's name. */
    method PayForContracts(leg: OptionLeg, total: real, today: Date)
      requires Valid()
      modifies this
      ensures Valid() && initialValue == old(initialValue)
      ensures var bought := Bought(old(AsBooks()), leg.symbol, leg.contracts, leg.price, Options, today,
                                   total, fees, leg.symbol, leg.series);
              AsBooks() == if bought.Ok? then bought.value
                           else old(AsBooks()).(cash := Debit(old(buyingPower), total, fees))
    {
      DecreaseBuyingPower(total);
      var added := AddHoldings(leg.symbol, leg.contracts, leg.price, Options, Some(today));
      if added.Ok? {
        strategies := strategies[leg.symbol := leg.series];
      }
    }

    /** `sell`: options go to `sell_option`; stocks and crypto sell a fraction of
        the position unless that breaks the minimum allocation. */
    method Sell(stock: string, s: HoldingsStrategy, today: Date, time: string) returns (r: Result<bool>, ghost sold: string)
      requires Valid() && ValidDate(today)
      modifies this, s.sellingConditions
      ensures Valid() && initialValue == old(initialValue)
      ensures s.assetClass == Options ==>
                OptionSaleSettles(r, sold, stock, s, old(AsBooks()), AsBooks(), fees, Ordinal(today), time,
                                  old(SellSets(s.sellingConditions)))
      ensures s.assetClass != Options ==>
                Settles(r, SellShares(stock, s, old(AsBooks()), fees, Ordinal(today), time), old(AsBooks()), AsBooks())
      ensures s.assetClass != Options ==>
                forall k :: 0 <= k < |s.sellingConditions| ==>
                  s.sellingConditions[k].holdingsToSell == old(s.sellingConditions[k].holdingsToSell)
      ensures s.assetClass == Options ==>
                forall k :: 0 <= k < |s.sellingConditions| ==>
                  s.sellingConditions[k].holdingsToSell ==
                    (if s.sellingConditions[k].HasHoldingsToSell() then {} else old(s.sellingConditions[k].holdingsToSell))
      ensures forall k :: 0 <= k < |s.sellingConditions| ==>
                s.sellingConditions[k].window == old(s.sellingConditions[k].window)
    {
      sold := "";
      if s.assetClass == Options {
        r, sold := SellOption(stock, s, today, time);
        return;
      }
      var day := Ordinal(today);
      var last := s.Price(day, time);
      if last.Fail? {
        return Fail(last.failure), sold;
      }
      var current := GetCurrentAllocation(stock, last.value);
      var quote := SaleQuote(s.assetClass, s.sellingAllocation, current, last.value);
      if quote.Fail? {
        return Fail(quote.failure), sold;
      }
      var value := GetPortfolioValue(day, time);
      if value.Fail? {
        return Fail(value.failure), sold;
      }
      if !SellAllowed(current, quote.value.total, s.minAllocation, value.value) {
        return Ok(false), sold;
      }
      var removed := SubtractHoldings(stock, quote.value.shares, s.assetClass);
      if removed.Fail? {
        return Fail(removed.failure), sold;
      }
      IncreaseBuyingPower(quote.value.total);
      r := Ok(true);
    }

    /** `sell_option`: merge the conditions' sell sets, keep the options on `stock`
        and close one of them. */
    method SellOption(stock: string, s: HoldingsStrategy, today: Date, time: string)
      returns (r: Result<bool>, ghost sold: string)
      requires Valid() && ValidDate(today)
      modifies this, s.sellingConditions
      ensures Valid() && initialValue == old(initialValue)
      ensures OptionSaleSettles(r, sold, stock, s, old(AsBooks()), AsBooks(), fees, Ordinal(today), time,
                                old(SellSets(s.sellingConditions)))
      ensures forall k :: 0 <= k < |s.sellingConditions| ==>
                s.sellingConditions[k].window == old(s.sellingConditions[k].window)
      ensures forall k :: 0 <= k < |s.sellingConditions| ==>
                s.sellingConditions[k].holdingsToSell ==
                  (if s.sellingConditions[k].HasHoldingsToSell() then {} else old(s.sellingConditions[k].holdingsToSell))
    {
      sold := "";
      var day := Ordinal(today);
      var all := CollectHoldingsToSell(s.sellingConditions);
      var flagged := FlaggedFor(all, stock);
      if flagged == {} {
        return Ok(false), sold;
      }
      var name :| name in flagged;
      sold := name;
      if name !in strategies {
        return Fail(MissingSeries(name)), sold;
      }
      r := CloseOption(s, name, day, time);
    }

    /** The second half of `sell_option`, once the option `name` is chosen. */
    method CloseOption(s: HoldingsStrategy, name: string, day: int, time: string) returns (r: Result<bool>)
      requires Valid()
      modifies this
      ensures Valid() && initialValue == old(initialValue)
      ensures Settles(r, Completed(SellOptionOutcome(s, old(AsBooks()), fees, day, time, name)), old(AsBooks()), AsBooks())
    {
      if name !in strategies {
        return Fail(MissingSeries(name));
      }
      var at := IndexOf(holdings, name);
      if at.None? {
        return Fail(NotHeld(name));
      }
      var h := holdings[at.value];
      var amount := if h.numAssets < 0.0 then -s.sellingAllocation else s.sellingAllocation;
      var price := Resolve(strategies[name], day, time);
      if price.Fail? {
        return Fail(price.failure);
      }
      var removed := SubtractHoldings(name, amount, h.assetClass);
      if removed.Fail? {
        return Fail(removed.failure);
      }
      IncreaseBuyingPower(CloseProceeds(amount, price.value));
      r := Ok(true);
    }

    /** `liquidate`: close the option at index `i` at its expiry-day close. */
    method Liquidate(i: nat, expiration: Date) returns (r: Result<bool>)
      requires Valid() && i < |holdings| && ValidDate(expiration)
      modifies this
      ensures Valid() && initialValue == old(initialValue)
      ensures Settles(r, Completed(Liquidated(old(AsBooks()), i, fees, expiration)), old(AsBooks()), AsBooks())
    {
      var h := holdings[i];
      if h.name !in strategies {
        return Fail(MissingSeries(h.name));
      }
      var price := Resolve(strategies[h.name], Ordinal(expiration), "Close");
      if price.Fail? {
        return Fail(price.failure);
      }
      IndexOfUnique(holdings, i);
      var removed := SubtractHoldings(h.name, h.numAssets, Options);
      if removed.Fail? {
        return Fail(removed.failure);
      }
      IncreaseBuyingPower(ExpiryProceeds(h.numAssets, price.value));
      r := Ok(true);
    }
  }
}
