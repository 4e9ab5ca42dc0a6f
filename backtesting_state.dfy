/** `BacktestingState`: the portfolio and strategy under test, the HODL benchmark it
    is compared with, and the histories a run accumulates: one (strategy value,
    HODL value) row per tick, and the dated buy and sell events. */
module Backtesting {
  import opened Common
  import opened Calendar
  import opened Prices
  import opened Holdings
  import opened Strategies
  import opened Ledger
  import opened Clock

  /** `update_portfolio_value`'s expiry test: an option whose expiration, read as
      a date, lies before `today`. An expiration that is no calendar date makes
      `datetime` raise. */
  function Expired(h: Holding, today: Date): (r: Result<bool>)
    requires ValidDate(today)
    ensures h.assetClass != Options ==> r == Ok(false)
    ensures h.assetClass == Options ==> (r.Ok? <==> h.expiration.Some? && ValidDate(h.expiration.value))
    ensures r.Ok? && r.value ==> h.assetClass == Options && Ordinal(h.expiration.value) < Ordinal(today)
    ensures r == Ok(false) && h.assetClass == Options ==> Ordinal(today) <= Ordinal(h.expiration.value)
  {
    if h.assetClass != Options then Ok(false)
    else match h.expiration
      case None => Fail(BadExpiration(h.name))
      case Some(e) =>
        if !ValidDate(e) then Fail(BadExpiration(h.name))
        else Ok(Ordinal(today) > Ordinal(e))
  }

  /** The holdings an expiry sweep keeps: all but the options past their expiration. */
  function Kept(hs: seq<Holding>, today: Date): (r: seq<Holding>)
    requires ValidDate(today)
    ensures |r| <= |hs|
  {
    if hs == [] then []
    else (if Expired(hs[0], today) == Ok(true) then [] else [hs[0]]) + Kept(hs[1..], today)
  }

  /** `Kept` drops exactly the expired options. */
  lemma {:induction false} KeptExactly(hs: seq<Holding>, today: Date, h: Holding)
    requires ValidDate(today)
    ensures h in Kept(hs, today) <==> h in hs && Expired(h, today) != Ok(true)
  {
    if hs != [] {
      KeptExactly(hs[1..], today, h);
      assert hs == [hs[0]] + hs[1..];
    }
  }

  /** The expiry sweep as written: it walks the list `liquidate` deletes from, so
      after a deletion the walk moves on one place too far and the holding that
      slid into the freed place is never looked at. */
  function SweepAsWritten(b: Books, j: nat, fee: real, today: Date): (r: Result<Books>)
    requires UniqueNames(b.holdings) && ValidDate(today)
    ensures j >= |b.holdings| ==> r == Ok(b)
    ensures r.Ok? && j <= |b.holdings| ==> j <= |r.value.holdings| && r.value.holdings[..j] == b.holdings[..j]
    decreases |b.holdings| - j
  {
    if j >= |b.holdings| then Ok(b)
    else match Expired(b.holdings[j], today)
      case Fail(e) => Fail(e)
      case Ok(expired) =>
        if !expired then
          var r := SweepAsWritten(b, j + 1, fee, today);
          assert r.Ok? ==> r.value.holdings[..j] == r.value.holdings[..j + 1][..j];
          r
        else match Liquidated(b, j, fee, b.holdings[j].expiration.value)
          case Fail(e) => Fail(e)
          case Ok(after) =>
            RemovalKeepsUnique(b.holdings, j);
            assert after.holdings[..j] == b.holdings[..j];
            var r := SweepAsWritten(after, j + 1, fee, today);
            ShorterPrefix(r, after.holdings, j);
            r
  }

  /** Two expired options side by side: liquidating the first makes the walk pass
      over the second, which is still held, and still expired, after the sweep. */
  lemma SweepAsWrittenSkipsNeighbour(b: Books, j: nat, fee: real, today: Date)
    requires UniqueNames(b.holdings) && ValidDate(today) && j + 1 < |b.holdings|
    requires Expired(b.holdings[j], today) == Ok(true) && Expired(b.holdings[j + 1], today) == Ok(true)
    requires Liquidated(b, j, fee, b.holdings[j].expiration.value).Ok?
    requires SweepAsWritten(b, j, fee, today).Ok?
    ensures var left := SweepAsWritten(b, j, fee, today).value.holdings;
            j < |left| && left[j] == b.holdings[j + 1] && Expired(left[j], today) == Ok(true)
  {
    var after := Liquidated(b, j, fee, b.holdings[j].expiration.value).value;
    RemovalKeepsUnique(b.holdings, j);
    assert after.holdings[j] == b.holdings[j + 1];
    var left := SweepAsWritten(after, j + 1, fee, today).value.holdings;
    assert left[j] == left[..j + 1][j];
  }

  /** A sweep result that agrees with `hs` up to `j + 1` agrees with it up to `j`. */
  lemma ShorterPrefix(r: Result<Books>, hs: seq<Holding>, j: nat)
    requires r.Ok? && j + 1 <= |hs| ==> j + 1 <= |r.value.holdings| && r.value.holdings[..j + 1] == hs[..j + 1]
    ensures r.Ok? && j + 1 <= |hs| ==> r.value.holdings[..j] == hs[..j]
  {
    if r.Ok? && j + 1 <= |hs| {
      assert r.value.holdings[..j] == r.value.holdings[..j + 1][..j];
    }
  }

  /** The sweep moving past a holding it keeps. */
  lemma KeepStep(hs: seq<Holding>, j: nat, r: Result<Books>, today: Date)
    requires ValidDate(today) && j < |hs| && Expired(hs[j], today) != Ok(true)
    requires r.Ok? ==> r.value.holdings == hs[..j + 1] + Kept(hs[j + 1..], today)
    ensures r.Ok? ==> r.value.holdings == hs[..j] + Kept(hs[j..], today)
  {
    assert hs[j..][1..] == hs[j + 1..];
    assert hs[..j + 1] == hs[..j] + [hs[j]];
  }

  /** The sweep staying in place after removing a holding. */
  lemma DropStep(hs: seq<Holding>, j: nat, after: seq<Holding>, r: Result<Books>, today: Date)
    requires ValidDate(today) && j < |hs| && Expired(hs[j], today) == Ok(true)
    requires after == hs[..j] + hs[j + 1..]
    requires r.Ok? ==> r.value.holdings == after[..j] + Kept(after[j..], today)
    ensures r.Ok? ==> r.value.holdings == hs[..j] + Kept(hs[j..], today)
  {
    assert hs[j..][1..] == hs[j + 1..];
    assert after[..j] == hs[..j] && after[j..] == hs[j + 1..];
  }

  /** The expiry sweep, corrected: after a liquidation the walk stays where it is,
      so what is left from `j` on is exactly the holdings that had not expired. */
  function Sweep(b: Books, j: nat, fee: real, today: Date): (r: Result<Books>)
    requires UniqueNames(b.holdings) && ValidDate(today) && j <= |b.holdings|
    ensures r.Ok? ==> UniqueNames(r.value.holdings) && r.value.strategies == b.strategies
    ensures r.Ok? ==> r.value.holdings == b.holdings[..j] + Kept(b.holdings[j..], today)
    decreases |b.holdings| - j
  {
    if j == |b.holdings| then
      assert b.holdings[..j] == b.holdings && b.holdings[j..] == [];
      Ok(b)
    else match Expired(b.holdings[j], today)
      case Fail(e) => Fail(e)
      case Ok(expired) =>
        if !expired then
          var r := Sweep(b, j + 1, fee, today);
          KeepStep(b.holdings, j, r, today);
          r
        else match Liquidated(b, j, fee, b.holdings[j].expiration.value)
          case Fail(e) => Fail(e)
          case Ok(after) =>
            RemovalKeepsUnique(b.holdings, j);
            var r := Sweep(after, j, fee, today);
            DropStep(b.holdings, j, after.holdings, r, today);
            r
  }

  /** One entry of the HODL benchmark: an asset, its series and the units bought
      with its share of the initial value. */
  datatype HodlEntry = HodlEntry(name: string, data: PriceSeries, units: real)

  /** The units an amount buys at a nonzero price. */
  function UnitsFor(amount: real, price: real): (units: real)
    requires price != 0.0
    ensures price * units == amount
  {
    amount / price
  }

  /** The price lookup of one tick: every series resolved at (`day`, `time`). */
  function QuoteAt(day: int, time: string): PriceSeries -> Result<real> {
    s => Resolve(s, day, time)
  }

  /** An entry funded by its allocation: same asset and series, and units worth the
      allocation's fraction of the initial value at the price `priceAt` gives. */
  predicate Funded(a: (string, real, PriceSeries), e: HodlEntry, initialValue: real,
                   priceAt: PriceSeries -> Result<real>) {
    e.name == a.0 && e.data == a.2 && FundedBy(priceAt(a.2), e.units, a.1 * initialValue)
  }

  /** `units` bought at a usable `quote` are worth `amount` at that quote. */
  predicate FundedBy(quote: Result<real>, units: real, amount: real) {
    !NoPrice(quote) && WorthAt(quote, units).Ok? && WorthAt(quote, units).value == amount
  }

  /** A quote that buys nothing: no price at all, or a zero price. */
  predicate NoPrice(quote: Result<real>) {
    quote.Fail? || quote == Ok(0.0)
  }

  /** `set_compare_function` with explicit allocations: each asset gets its
      fraction of the initial value, in units at the first tick's price
      (`priceAt`, which is `QuoteAt` of that tick). */
  function HodlUnits(allocations: seq<(string, real, PriceSeries)>, initialValue: real,
                     priceAt: PriceSeries -> Result<real>): (r: Result<seq<HodlEntry>>)
    ensures r.Ok? ==> |r.value| == |allocations|
    ensures r.Ok? ==> forall k :: 0 <= k < |allocations| ==> Funded(allocations[k], r.value[k], initialValue, priceAt)
    ensures r.Fail? <==> exists k :: 0 <= k < |allocations| && NoPrice(priceAt(allocations[k].2))
  {
    if allocations == [] then Ok([])
    else
      var n := |allocations| - 1;
      var a := allocations[n];
      match HodlUnits(allocations[..n], initialValue, priceAt)
      case Fail(e) => Fail(e)
      case Ok(entries) =>
        var quote := priceAt(a.2);
        match quote
        case Fail(e) => Fail(e)
        case Ok(price) =>
          if price == 0.0 then Fail(DivisionByZero)
          else
            var e := HodlEntry(a.0, a.2, UnitsFor(a.1 * initialValue, price));
            FundedAtPrice(quote, a.1 * initialValue);
            FundedExtend(allocations, entries, e, initialValue, priceAt);
            Ok(entries + [e])
  }

  /** Funding the last allocation extends a funded prefix to the whole list. */
  lemma FundedExtend(allocations: seq<(string, real, PriceSeries)>, entries: seq<HodlEntry>, e: HodlEntry,
                     initialValue: real, priceAt: PriceSeries -> Result<real>)
    requires |allocations| == |entries| + 1
    requires forall k :: 0 <= k < |entries| ==> Funded(allocations[..|entries|][k], entries[k], initialValue, priceAt)
    requires Funded(allocations[|entries|], e, initialValue, priceAt)
    ensures forall k :: 0 <= k < |allocations| ==> Funded(allocations[k], (entries + [e])[k], initialValue, priceAt)
  {
    var n := |entries|;
    forall k | 0 <= k < |allocations|
      ensures Funded(allocations[k], (entries + [e])[k], initialValue, priceAt)
    {
      if k < n {
        assert allocations[..n][k] == allocations[k] && (entries + [e])[k] == entries[k];
      }
    }
  }

  /** Units bought at a usable quote are worth the amount spent at that quote. */
  lemma FundedAtPrice(quote: Result<real>, amount: real)
    requires quote.Ok? && quote.value != 0.0
    ensures FundedBy(quote, UnitsFor(amount, quote.value), amount)
  {
  }

  /** The HODL benchmark's value: every asset's units at the price `priceAt` gives.
      It exists exactly when every asset has a price. */
  function HodlValue(entries: seq<HodlEntry>, priceAt: PriceSeries -> Result<real>): (r: Result<real>)
    ensures r.Fail? <==> exists k :: 0 <= k < |entries| && priceAt(entries[k].data).Fail?
  {
    if entries == [] then Ok(0.0)
    else
      var n := |entries| - 1;
      var before := HodlValue(entries[..n], priceAt);
      var worth := EntryWorth(entries[n], priceAt);
      assert forall k :: 0 <= k < n ==> entries[..n][k] == entries[k];
      if before.Fail? then before
      else if worth.Fail? then worth
      else Ok(before.value + worth.value)
  }

  /** One entry's units at the price `priceAt` gives. */
  function EntryWorth(e: HodlEntry, priceAt: PriceSeries -> Result<real>): Result<real> {
    WorthAt(priceAt(e.data), e.units)
  }

  /** `units` at a quote, or the quote's failure. */
  function WorthAt(quote: Result<real>, units: real): Result<real> {
    if quote.Fail? then Fail(quote.failure) else Ok(quote.value * units)
  }

  /** One more entry priced: the benchmark grows by its worth. */
  lemma HodlValueStep(entries: seq<HodlEntry>, i: nat, priceAt: PriceSeries -> Result<real>, acc: real)
    requires i < |entries| && HodlValue(entries[..i], priceAt) == Ok(acc)
    requires EntryWorth(entries[i], priceAt).Ok?
    ensures HodlValue(entries[..i + 1], priceAt) == Ok(acc + EntryWorth(entries[i], priceAt).value)
  {
    var e := entries[..i + 1];
    assert e[..i] == entries[..i] && e[i] == entries[i];
  }

  /** The amounts the allocations set aside: each fraction of the initial value. */
  function Allotted(allocations: seq<(string, real, PriceSeries)>, initialValue: real): real {
    if allocations == [] then 0.0
    else Allotted(allocations[..|allocations| - 1], initialValue) + allocations[|allocations| - 1].1 * initialValue
  }

  /** The sum of the allocation fractions. */
  function FractionTotal(allocations: seq<(string, real, PriceSeries)>): real {
    if allocations == [] then 0.0 else FractionTotal(allocations[..|allocations| - 1]) + allocations[|allocations| - 1].1
  }

  /** Setting aside each fraction of the initial value sets aside their sum of it. */
  lemma {:induction false} AllottedIsTotalShare(allocations: seq<(string, real, PriceSeries)>, initialValue: real)
    ensures Allotted(allocations, initialValue) == FractionTotal(allocations) * initialValue
  {
    if allocations != [] {
      var n := |allocations| - 1;
      AllottedIsTotalShare(allocations[..n], initialValue);
      Distribute(FractionTotal(allocations[..n]), allocations[n].1, initialValue);
    }
  }

  lemma Distribute(a: real, b: real, c: real)
    ensures (a + b) * c == a * c + b * c
  { }

  /** Priced where it was bought, the benchmark is worth what the allocations set
      aside of the initial value. */
  lemma {:induction false} HodlStartsAllotted(allocations: seq<(string, real, PriceSeries)>,
                                              initialValue: real, priceAt: PriceSeries -> Result<real>)
    requires HodlUnits(allocations, initialValue, priceAt).Ok?
    ensures var start := HodlValue(HodlUnits(allocations, initialValue, priceAt).value, priceAt);
            start.Ok? && start.value == Allotted(allocations, initialValue)
  {
    var entries := HodlUnits(allocations, initialValue, priceAt).value;
    if allocations == [] {
      assert entries == [];
    } else {
      var n := |allocations| - 1;
      var prefix := HodlUnits(allocations[..n], initialValue, priceAt);
      assert prefix.Ok? && entries[..n] == prefix.value;
      HodlStartsAllotted(allocations[..n], initialValue, priceAt);
      assert Funded(allocations[n], entries[n], initialValue, priceAt);
    }
  }

  /** The benchmark starts at the initial value times the sum of the fractions: the
      whole initial value when the fractions add up to 1. */
  lemma HodlStartsAtInitialValue(allocations: seq<(string, real, PriceSeries)>,
                                 initialValue: real, priceAt: PriceSeries -> Result<real>)
    requires HodlUnits(allocations, initialValue, priceAt).Ok?
    ensures var start := HodlValue(HodlUnits(allocations, initialValue, priceAt).value, priceAt);
            start.Ok? && start.value == FractionTotal(allocations) * initialValue
  {
    HodlStartsAllotted(allocations, initialValue, priceAt);
    AllottedIsTotalShare(allocations, initialValue);
  }

  class BacktestingState {
    const portfolio: Portfolio
    const strategy: HoldingsStrategy
    const hodl: seq<HodlEntry>
    var history: seq<(real, real)>
    var buyHistory: seq<(Date, string)>
    var sellHistory: seq<(Date, string)>

    constructor(portfolio: Portfolio, strategy: HoldingsStrategy, hodl: seq<HodlEntry>)
      ensures this.portfolio == portfolio && this.strategy == strategy && this.hodl == hodl
      ensures history == [] && buyHistory == [] && sellHistory == []
    {
      this.portfolio := portfolio;
      this.strategy := strategy;
      this.hodl := hodl;
      history := [];
      buyHistory := [];
      sellHistory := [];
    }

    /** `__init__` with explicit allocations: the run starts at the first label of
        `resolution` on `start`, and `set_compare_function` funds each allocation
        at that tick's price. A missing price raises, so no state is made; a zero
        price is taken as failing the same way. */
    static method Create(portfolio: Portfolio, strategy: HoldingsStrategy, start: Date, resolution: Resolution,
                         allocations: seq<(string, real, PriceSeries)>) returns (r: Result<BacktestingState>)
      requires ValidDate(start)
      ensures var units := HodlUnits(allocations, portfolio.initialValue,
                                     QuoteAt(Ordinal(start), Labels(resolution)[0]));
              (units.Fail? ==> r == Fail(units.failure)) &&
              (units.Ok? ==> r.Ok? && fresh(r.value) &&
                             r.value.portfolio == portfolio && r.value.strategy == strategy &&
                             r.value.hodl == units.value &&
                             r.value.history == [] && r.value.buyHistory == [] && r.value.sellHistory == [])
    {
      var units := HodlUnits(allocations, portfolio.initialValue, QuoteAt(Ordinal(start), Labels(resolution)[0]));
      if units.Fail? {
        return Fail(units.failure);
      }
      var state := new BacktestingState(portfolio, strategy, units.value);
      return Ok(state);
    }

    /** `acknowledge_buy`: the strategy records the purchase; the history only
        when the buying allocation is positive. */
    method AcknowledgeBuy(s: HoldingsStrategy, today: Date, time: string)
      modifies this, s
      ensures s.lastPurchase == Some((today, time)) && s.lastSale == old(s.lastSale)
      ensures buyHistory == old(buyHistory) + (if Amount(s.buyingAllocation) > 0.0 then [(today, s.assetName)] else [])
      ensures history == old(history) && sellHistory == old(sellHistory)
    {
      s.AcknowledgeBuy(today, time);
      if Amount(s.buyingAllocation) > 0.0 {
        buyHistory := buyHistory + [(today, s.assetName)];
      }
    }

    /** `acknowledge_sell`: every sale is recorded. */
    method AcknowledgeSell(s: HoldingsStrategy, today: Date, time: string)
      modifies this, s
      ensures s.lastSale == Some((today, time)) && s.lastPurchase == old(s.lastPurchase)
      ensures sellHistory == old(sellHistory) + [(today, s.assetName)]
      ensures history == old(history) && buyHistory == old(buyHistory)
    {
      s.AcknowledgeSell(today, time);
      sellHistory := sellHistory + [(today, s.assetName)];
    }

    /** The HODL loop of `update_portfolio_value`, at the tick prices `priceAt` gives. */
    method GetHodlValue(priceAt: PriceSeries -> Result<real>) returns (r: Result<real>)
      ensures r == HodlValue(hodl, priceAt)
    {
      var acc := 0.0;
      var i := 0;
      while i < |hodl|
        invariant 0 <= i <= |hodl|
        invariant HodlValue(hodl[..i], priceAt) == Ok(acc)
      {
        assert hodl[..i + 1][..i] == hodl[..i] && hodl[..i + 1][i] == hodl[i];
        var worth := EntryWorth(hodl[i], priceAt);
        if worth.Fail? {
          HodlFailsFromPrefix(hodl, i + 1, priceAt);
          return worth;
        }
        HodlValueStep(hodl, i, priceAt, acc);
        acc := acc + worth.value;
        i := i + 1;
      }
      assert hodl[..i] == hodl;
      r := Ok(acc);
    }

    /** `update_portfolio_value`: one (strategy value, HODL value) row is appended,
        then every option past its expiration is liquidated. */
    method UpdatePortfolioValue(today: Date, time: string) returns (r: Result<(real, real)>)
      requires portfolio.Valid() && ValidDate(today)
      modifies this, portfolio
      ensures portfolio.Valid() && portfolio.initialValue == old(portfolio.initialValue)
      ensures buyHistory == old(buyHistory) && sellHistory == old(sellHistory)
      ensures var value := old(portfolio.Value(Ordinal(today), time));
              var bench := HodlValue(hodl, QuoteAt(Ordinal(today), time));
              value.Fail? ==> r == Fail(value.failure) && history == old(history)
      ensures var value := old(portfolio.Value(Ordinal(today), time));
              var bench := HodlValue(hodl, QuoteAt(Ordinal(today), time));
              value.Ok? && bench.Fail? ==> r == Fail(bench.failure) && history == old(history)
      ensures r.Ok? ==> r.value == (old(portfolio.Value(Ordinal(today), time)).value, HodlValue(hodl, QuoteAt(Ordinal(today), time)).value)
      ensures r.Ok? ==> history == old(history) + [r.value]
      ensures r.Ok? ==> Sweep(old(portfolio.AsBooks()), 0, portfolio.fees, today) == Ok(portfolio.AsBooks())
    {
      var day := Ordinal(today);
      var value := portfolio.GetPortfolioValue(day, time);
      if value.Fail? {
        return Fail(value.failure);
      }
      var bench := GetHodlValue(QuoteAt(day, time));
      if bench.Fail? {
        return Fail(bench.failure);
      }
      history := history + [(value.value, bench.value)];
      var sweep := SweepExpired(today);
      if sweep.Fail? {
        return Fail(sweep.failure);
      }
      r := Ok((value.value, bench.value));
    }

    /** The expiry loop of `update_portfolio_value`, walking the holdings and
        liquidating expired options as it goes. */
    method SweepExpired(today: Date) returns (r: Result<bool>)
      requires portfolio.Valid() && ValidDate(today)
      modifies portfolio
      ensures portfolio.Valid() && portfolio.initialValue == old(portfolio.initialValue)
      ensures var swept := Sweep(old(portfolio.AsBooks()), 0, portfolio.fees, today);
              (r.Ok? <==> swept.Ok?) && (r.Ok? ==> portfolio.AsBooks() == swept.value) &&
              (r.Fail? ==> r.failure == swept.failure)
    {
      var j := 0;
      while j < |portfolio.holdings|
        invariant portfolio.Valid() && j <= |portfolio.holdings|
        invariant portfolio.initialValue == old(portfolio.initialValue)
        invariant Sweep(portfolio.AsBooks(), j, portfolio.fees, today) == Sweep(old(portfolio.AsBooks()), 0, portfolio.fees, today)
        decreases |portfolio.holdings| - j
      {
        var expired := Expired(portfolio.holdings[j], today);
        if expired.Fail? {
          return Fail(expired.failure);
        }
        if expired.value {
          var done := portfolio.Liquidate(j, portfolio.holdings[j].expiration.value);
          if done.Fail? {
            return Fail(done.failure);
          }
        } else {
          j := j + 1;
        }
      }
      r := Ok(true);
    }
  }

  /** Once a prefix of the benchmark cannot be priced, the whole benchmark fails the same way. */
  lemma {:induction false} HodlFailsFromPrefix(entries: seq<HodlEntry>, k: nat, priceAt: PriceSeries -> Result<real>)
    requires k <= |entries| && HodlValue(entries[..k], priceAt).Fail?
    ensures HodlValue(entries, priceAt) == HodlValue(entries[..k], priceAt)
    decreases |entries| - k
  {
    if k < |entries| {
      assert entries[..k + 1][..k] == entries[..k];
      HodlFailsFromPrefix(entries, k + 1, priceAt);
    } else {
      assert entries[..k] == entries;
    }
  }
}
