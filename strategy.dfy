/** `HoldingsStrategy`: the configuration of one trading strategy on one asset, the
    instant of its last purchase and sale, and its own price lookup. */
module Strategies {
  import opened Common
  import opened Numeric
  import opened Calendar
  import opened OptionSymbols
  import opened Prices
  import opened Holdings
  import opened Conditions

  /** A buying allocation is a Python int (a count of units) or a float (a fraction). */
  datatype Allocation = Units(count: int) | Fraction(fraction: real)

  /** The allocation's numeric value. */
  function Amount(a: Allocation): real {
    match a
    case Units(k) => k as real
    case Fraction(f) => f
  }

  /** `buying_allocation_type`: 'percent_portfolio', 'percent_bp', or any other string. */
  datatype AllocationBasis = PercentPortfolio | PercentBuyingPower | OtherBasis

  /** The series' price `k` days before `day`. */
  function Back(s: PriceSeries, day: int, column: string, k: int): Option<real> {
    Lookup(s, day - k, column)
  }

  class HoldingsStrategy {
    const assetName: string
    /** The daily frame of a stock (or of an option's underlying). */
    const data: PriceSeries
    /** The hourly frame of a crypto asset: its Open price per (day, hour time). */
    const intraday: map<(int, string), real>
    const buyingAllocation: Allocation
    const basis: AllocationBasis
    const maxAllocation: real
    const minAllocation: real
    const sellingAllocation: real
    const assetClass: AssetClass
    const mustBeProfitable: bool
    const strikesAbove: int
    const optionType: OptionType
    const sellingConditions: seq<Condition>
    /** `_last_purchase` / `_last_sale`: (date, time time) of the last acknowledged trade. */
    var lastPurchase: Option<(Date, string)>
    var lastSale: Option<(Date, string)>

    constructor(assetName: string, data: PriceSeries, intraday: map<(int, string), real>,
                buyingAllocation: Allocation, basis: AllocationBasis,
                maxAllocation: real, minAllocation: real, sellingAllocation: real,
                assetClass: AssetClass, mustBeProfitable: bool, strikesAbove: int,
                optionType: OptionType, sellingConditions: seq<Condition>)
      ensures this.assetName == assetName && this.data == data && this.intraday == intraday
      ensures this.buyingAllocation == buyingAllocation && this.basis == basis
      ensures this.maxAllocation == maxAllocation && this.minAllocation == minAllocation
      ensures this.sellingAllocation == sellingAllocation && this.assetClass == assetClass
      ensures this.mustBeProfitable == mustBeProfitable && this.strikesAbove == strikesAbove
      ensures this.optionType == optionType && this.sellingConditions == sellingConditions
      ensures lastPurchase == None && lastSale == None
    {
      this.assetName := assetName;
      this.data := data;
      this.intraday := intraday;
      this.buyingAllocation := buyingAllocation;
      this.basis := basis;
      this.maxAllocation := maxAllocation;
      this.minAllocation := minAllocation;
      this.sellingAllocation := sellingAllocation;
      this.assetClass := assetClass;
      this.mustBeProfitable := mustBeProfitable;
      this.strikesAbove := strikesAbove;
      this.optionType := optionType;
      this.sellingConditions := sellingConditions;
      lastPurchase := None;
      lastSale := None;
    }

    /** `acknowledge_buy`. */
    method AcknowledgeBuy(today: Date, time: string)
      modifies this
      ensures lastPurchase == Some((today, time)) && lastSale == old(lastSale)
    {
      lastPurchase := Some((today, time));
    }

    /** `acknowledge_sell`. */
    method AcknowledgeSell(today: Date, time: string)
      modifies this
      ensures lastSale == Some((today, time)) && lastPurchase == old(lastPurchase)
    {
      lastSale := Some((today, time));
    }

    /** `get_stock_price`: for stocks and options the rounded price of `day`, else of
        the day before, else of two days before; for crypto the unrounded Open of the
        (day, time) row. A miss is None for stocks and options, a KeyError for
        crypto, None for any other asset class. `buy`, `buy_options` and `sell`
        compute with the price and raise on None, so all of these are
        `Fail(PriceUnavailable)`; `sell_option` only logs it and does not call this. */
    function Price(day: int, time: string): (r: Result<real>)
      ensures r.Fail? ==> r == Fail(PriceUnavailable)
      ensures assetClass == Stocks || assetClass == Options ==>
                (r.Ok? <==> exists k :: 0 <= k < 3 && Back(data, day, time, k).Some?)
      ensures (assetClass == Stocks || assetClass == Options) && r.Ok? ==>
                exists k :: 0 <= k < 3 && Back(data, day, time, k).Some? &&
                            r.value == RoundCents(Back(data, day, time, k).value) &&
                            forall j :: 0 <= j < k ==> Back(data, day, time, j).None?
      ensures assetClass == Crypto ==> (r.Ok? <==> (day, time) in intraday)
      ensures assetClass == Crypto && r.Ok? ==> r.value == intraday[(day, time)]
      ensures assetClass == Unrecognised ==> r.Fail?
    {
      match assetClass
      case Stocks => PriceFrom(day, time, 0)
      case Options => PriceFrom(day, time, 0)
      case Crypto =>
        if (day, time) in intraday then Ok(intraday[(day, time)]) else Fail(PriceUnavailable)
      case Unrecognised => Fail(PriceUnavailable)
    }

    /** The `while i < 3` loop of `get_stock_price`, from offset `i`. */
    function PriceFrom(day: int, time: string, i: nat): (r: Result<real>)
      requires i <= 3
      ensures r.Fail? ==> r == Fail(PriceUnavailable)
      ensures r.Ok? <==> exists k :: i <= k < 3 && Back(data, day, time, k).Some?
      ensures r.Ok? ==> exists k :: i <= k < 3 && Back(data, day, time, k).Some? &&
                                    r.value == RoundCents(Back(data, day, time, k).value) &&
                                    forall j :: i <= j < k ==> Back(data, day, time, j).None?
      decreases 3 - i
    {
      if i == 3 then Fail(PriceUnavailable)
      else match Back(data, day, time, i)
        case Some(p) =>
          assert forall j :: i <= j < i ==> Back(data, day, time, j).None?;
          Ok(RoundCents(p))
        case None => PriceFrom(day, time, i + 1)
    }
  }
}
