/** `Holdings` and the ledger operations of `Portfolio` on values: the list of
    holdings, merged by name (`Holdings.__eq__` compares names), with quantity and
    average cost. A holding is a value here; `Portfolio` keeps the list in a field and
    replaces entries where the source mutates the shared object. */
module Holdings {
  import opened Common
  import opened Calendar
  import opened OptionSymbols
  import opened Prices

  datatype AssetClass = Stocks | Crypto | Options | Unrecognised

  datatype Holding = Holding(name: string, numAssets: real, initialPrice: real,
                             assetClass: AssetClass, expiration: Option<Date>,
                             purchaseDate: Option<Date>)

  /** `Holdings.__init__`: an option's name must carry a YYMMDD expiration after its
      leading letters; otherwise the regex match is None and the constructor raises. */
  function MakeHolding(name: string, n: real, price: real, cls: AssetClass,
                       purchaseDate: Option<Date>): (r: Result<Holding>)
    ensures r.Ok? <==> cls != Options || ParseExpiration(name).Some?
    ensures r.Ok? ==> r.value.name == name && r.value.numAssets == n &&
                      r.value.initialPrice == price && r.value.assetClass == cls
    ensures r.Ok? ==> r.value.expiration == (if cls == Options then ParseExpiration(name) else None)
    ensures r.Ok? ==> r.value.purchaseDate == purchaseDate
  {
    if cls == Options then
      match ParseExpiration(name)
      case None => Fail(BadExpiration(name))
      case Some(e) => Ok(Holding(name, n, price, cls, Some(e), purchaseDate))
    else Ok(Holding(name, n, price, cls, None, purchaseDate))
  }

  predicate HasDigit(s: string) { exists i :: 0 <= i < |s| && IsDigit(s[i]) }

  /** `get_underlying_name`: for a name with a digit (an option symbol) the first run
      of non-digits, otherwise the name itself. */
  function UnderlyingName(name: string): (u: string)
    ensures !HasDigit(name) ==> u == name
    ensures forall i :: 0 <= i < |u| ==> !IsDigit(u[i])
  {
    if HasDigit(name) then LeadingNonDigits(SkipDigits(name)) else name
  }

  function SkipDigits(s: string): string
  {
    if s != [] && IsDigit(s[0]) then SkipDigits(s[1..]) else s
  }

  /** A stock ticker without digits is its own underlying; an option symbol built for
      it has that ticker as underlying. */
  lemma SymbolUnderlying(stock: string, friday: Date, t: OptionType, strike: int)
    requires 2000 <= friday.year <= 2099 && 0 <= friday.month < 100 && 0 <= friday.day < 100
    requires |stock| >= 1 && forall i :: 0 <= i < |stock| ==> !IsDigit(stock[i])
    ensures UnderlyingName(SymbolOf(stock, friday, t, strike)) == stock
  {
    var date := DateField(friday);
    var tail := [TypeLetter(t)] + StrikeField(strike);
    var name := SymbolOf(stock, friday, t, strike);
    assert name == stock + (date + tail);
    assert IsDigit(name[|stock|]);
    assert SkipDigits(name) == name;
    assert (date + tail)[0] == date[0];
    LeadingNonDigitsOfPrefix(stock, date + tail);
  }

  // ---------------------------------------------------------------- lookup by name

  /** `self._current_holdings.index(new_holding)`: the first holding with the name. */
  function IndexOf(hs: seq<Holding>, name: string): (r: Option<nat>)
    ensures r.Some? ==> r.value < |hs| && hs[r.value].name == name
    ensures r.Some? ==> forall k :: 0 <= k < r.value ==> hs[k].name != name
    ensures r.None? ==> forall k :: 0 <= k < |hs| ==> hs[k].name != name
  {
    FirstWith(hs, (h: Holding) => h.name, name)
  }

  predicate UniqueNames(hs: seq<Holding>) {
    forall i, j :: 0 <= i < j < |hs| ==> hs[i].name != hs[j].name
  }

  /** With one holding per name, `list.index` finds every holding where it is. */
  lemma IndexOfUnique(hs: seq<Holding>, i: nat)
    requires UniqueNames(hs) && i < |hs|
    ensures IndexOf(hs, hs[i].name) == Some(i)
  {
  }

  /** The total quantity held under `name`, summed over the list. */
  function Position(hs: seq<Holding>, name: string): real
  {
    if hs == [] then 0.0
    else Position(hs[..|hs| - 1], name) + (if hs[|hs| - 1].name == name then hs[|hs| - 1].numAssets else 0.0)
  }

  lemma {:induction false} PositionConcat(a: seq<Holding>, b: seq<Holding>, name: string)
    ensures Position(a + b, name) == Position(a, name) + Position(b, name)
    decreases |b|
  {
    if b == [] {
      assert a + b == a;
    } else {
      assert (a + b)[..|a + b| - 1] == a + b[..|b| - 1];
      PositionConcat(a, b[..|b| - 1], name);
    }
  }

  lemma PositionSingle(h: Holding, name: string)
    ensures Position([h], name) == if h.name == name then h.numAssets else 0.0
  {
    assert [h][..0] == [];
  }

  /** Position of a list split around index `i`. */
  lemma PositionSplit(hs: seq<Holding>, i: nat, name: string)
    requires i < |hs|
    ensures Position(hs, name) ==
            Position(hs[..i], name) + (if hs[i].name == name then hs[i].numAssets else 0.0)
            + Position(hs[i + 1..], name)
  {
    assert hs == hs[..i] + [hs[i]] + hs[i + 1..];
    PositionConcat(hs[..i] + [hs[i]], hs[i + 1..], name);
    PositionConcat(hs[..i], [hs[i]], name);
    PositionSingle(hs[i], name);
  }

  // ---------------------------------------------------------------- add / subtract

  /** `Holdings.update_price` after `add_shares`: the average cost of `q` units at
      `avg` plus `n` units at `price`. */
  function ReweightedPrice(q: real, avg: real, n: real, price: real): (r: real)
    requires q + n != 0.0
    ensures r * (q + n) == q * avg + n * price
  {
    (q * avg + price * n) / (q + n)
  }

  /** `Portfolio.add_holdings` as the source writes it: `update_price` divides by the
      new quantity before the zero check, so with Python-number operands a purchase
      that brings a holding to zero raises ZeroDivisionError instead of deleting it. */
  function AddedAsWritten(hs: seq<Holding>, name: string, n: real, price: real, cls: AssetClass,
                          date: Option<Date>): (r: Result<seq<Holding>>)
    ensures r.Ok? <==> MakeHolding(name, n, price, cls, date).Ok? &&
                       (IndexOf(hs, name).None? || hs[IndexOf(hs, name).value].numAssets + n != 0.0)
  {
    match MakeHolding(name, n, price, cls, date)
    case Fail(e) => Fail(e)
    case Ok(nh) =>
      match IndexOf(hs, name)
      case None => Ok(hs + [nh])
      case Some(i) =>
        var q := hs[i].numAssets + n;
        if q == 0.0 then Fail(DivisionByZero)
        else Ok(hs[i := hs[i].(numAssets := q,
                               initialPrice := ReweightedPrice(hs[i].numAssets, hs[i].initialPrice, n, price))])
  }

  /** Two shares held, two shares sold back through a negative purchase: the source
      divides by the new quantity zero, the corrected ledger drops the holding. */
  lemma AddToZeroDiffers()
    ensures var held := Holding("SPY", 2.0, 300.0, Stocks, None, None);
            AddedAsWritten([held], "SPY", -2.0, 310.0, Stocks, None) == Fail(DivisionByZero) &&
            Added([held], "SPY", -2.0, 310.0, Stocks, None) == Ok([])
  {
    var held := Holding("SPY", 2.0, 300.0, Stocks, None, None);
    assert IndexOf([held], "SPY") == Some(0);
  }

  /** `Portfolio.add_holdings` as intended: a new name is appended; an existing
      holding gains the quantity at the reweighted average cost, and is deleted when
      its quantity reaches zero. */
  function Added(hs: seq<Holding>, name: string, n: real, price: real, cls: AssetClass,
                 date: Option<Date>): (r: Result<seq<Holding>>)
    ensures r.Ok? <==> MakeHolding(name, n, price, cls, date).Ok?
    ensures r.Ok? ==> Position(r.value, name) == Position(hs, name) + n
    ensures r.Ok? ==> forall other :: other != name ==> Position(r.value, other) == Position(hs, other)
    ensures r.Ok? && IndexOf(hs, name).None? ==> r.value == hs + [MakeHolding(name, n, price, cls, date).value]
    ensures r.Ok? && IndexOf(hs, name).Some? ==> r.value == MergedAt(hs, IndexOf(hs, name).value, n, price)
  {
    match MakeHolding(name, n, price, cls, date)
    case Fail(e) => Fail(e)
    case Ok(nh) =>
      match IndexOf(hs, name)
      case None =>
        PositionConcat(hs, [nh], name);
        PositionSingle(nh, name);
        AppendKeepsOthers(hs, nh);
        Ok(hs + [nh])
      case Some(i) => Ok(MergedAt(hs, i, n, price))
  }

  /** The existing entry `i` gains `n` units at `price`, its cost reweighted as
      `ReweightedPrice` states; deleted when it reaches zero. */
  function MergedAt(hs: seq<Holding>, i: nat, n: real, price: real): (r: seq<Holding>)
    requires i < |hs|
    ensures Position(r, hs[i].name) == Position(hs, hs[i].name) + n
    ensures forall other :: other != hs[i].name ==> Position(r, other) == Position(hs, other)
    ensures hs[i].numAssets + n == 0.0 ==> r == hs[..i] + hs[i + 1..]
    ensures hs[i].numAssets + n != 0.0 ==> |r| == |hs|
    ensures hs[i].numAssets + n != 0.0 ==> forall k :: 0 <= k < |hs| && k != i ==> r[k] == hs[k]
    ensures hs[i].numAssets + n != 0.0 ==>
              r[i] == hs[i].(numAssets := hs[i].numAssets + n,
                             initialPrice := ReweightedPrice(hs[i].numAssets, hs[i].initialPrice, n, price))
  {
    var q := hs[i].numAssets + n;
    if q == 0.0 then
      RemoveAtPositions(hs, i);
      hs[..i] + hs[i + 1..]
    else
      var h' := hs[i].(numAssets := q,
                       initialPrice := ReweightedPrice(hs[i].numAssets, hs[i].initialPrice, n, price));
      UpdateAtPositions(hs, i, h');
      hs[i := h']
  }

  lemma AppendKeepsOthers(hs: seq<Holding>, h: Holding)
    ensures forall other :: other != h.name ==> Position(hs + [h], other) == Position(hs, other)
  {
    forall other | other != h.name ensures Position(hs + [h], other) == Position(hs, other) {
      assert (hs + [h])[..|hs|] == hs;
    }
  }

  /** Deleting entry `i` removes its quantity from its name and nothing else. */
  lemma RemoveAtPositions(hs: seq<Holding>, i: nat)
    requires i < |hs|
    ensures forall nm :: Position(hs[..i] + hs[i + 1..], nm) ==
                         Position(hs, nm) - (if hs[i].name == nm then hs[i].numAssets else 0.0)
  {
    forall nm ensures Position(hs[..i] + hs[i + 1..], nm) ==
                      Position(hs, nm) - (if hs[i].name == nm then hs[i].numAssets else 0.0) {
      PositionSplit(hs, i, nm);
      PositionConcat(hs[..i], hs[i + 1..], nm);
    }
  }

  /** Replacing entry `i` by one of the same name changes only that name's position. */
  lemma UpdateAtPositions(hs: seq<Holding>, i: nat, h: Holding)
    requires i < |hs| && h.name == hs[i].name
    ensures forall nm :: Position(hs[i := h], nm) ==
                         Position(hs, nm) + (if h.name == nm then h.numAssets - hs[i].numAssets else 0.0)
  {
    forall nm ensures Position(hs[i := h], nm) ==
                      Position(hs, nm) + (if h.name == nm then h.numAssets - hs[i].numAssets else 0.0) {
      PositionSplit(hs, i, nm);
      PositionSplit(hs[i := h], i, nm);
      assert hs[i := h][..i] == hs[..i];
      assert hs[i := h][i + 1..] == hs[i + 1..];
    }
  }

  /** `Portfolio.subtract_holdings`: the (option) name is checked first, then the
      holding loses the quantity and is deleted at zero; a name not held is the
      fatal "Selling shares you don't own". */
  function Subtracted(hs: seq<Holding>, name: string, n: real, cls: AssetClass): (r: Result<seq<Holding>>)
    ensures IndexOf(hs, name).None? ==> r.Fail?
    ensures MakeHolding(name, n, 0.0, cls, None).Ok? && IndexOf(hs, name).Some? ==> r.Ok?
    ensures r.Ok? ==> MakeHolding(name, n, 0.0, cls, None).Ok?
    ensures r.Ok? ==> Position(r.value, name) == Position(hs, name) - n
    ensures r.Ok? ==> forall other :: other != name ==> Position(r.value, other) == Position(hs, other)
    ensures r.Ok? ==> var i := IndexOf(hs, name).value;
                      (hs[i].numAssets - n == 0.0 ==> r.value == hs[..i] + hs[i + 1..]) &&
                      (hs[i].numAssets - n != 0.0 ==>
                         |r.value| == |hs| && r.value[i] == hs[i].(numAssets := hs[i].numAssets - n) &&
                         forall k :: 0 <= k < |hs| && k != i ==> r.value[k] == hs[k])
  {
    match MakeHolding(name, n, 0.0, cls, None)
    case Fail(e) => Fail(e)
    case Ok(_) =>
      match IndexOf(hs, name)
      case None => Fail(NotHeld(name))
      case Some(i) =>
        var q := hs[i].numAssets - n;
        if q == 0.0 then
          RemoveAtPositions(hs, i);
          Ok(hs[..i] + hs[i + 1..])
        else
          UpdateAtPositions(hs, i, hs[i].(numAssets := q));
          Ok(hs[i := hs[i].(numAssets := q)])
  }

  /** Adding and subtracting keep at most one holding per name. */
  lemma AddedKeepsNamesUnique(hs: seq<Holding>, name: string, n: real, price: real,
                              cls: AssetClass, date: Option<Date>)
    requires UniqueNames(hs) && Added(hs, name, n, price, cls, date).Ok?
    ensures UniqueNames(Added(hs, name, n, price, cls, date).value)
  {
    var r := Added(hs, name, n, price, cls, date).value;
    match IndexOf(hs, name)
    case None =>
    case Some(i) =>
      if hs[i].numAssets + n == 0.0 {
        assert r == hs[..i] + hs[i + 1..];
        RemovalKeepsUnique(hs, i);
      }
  }

  lemma SubtractedKeepsNamesUnique(hs: seq<Holding>, name: string, n: real, cls: AssetClass)
    requires UniqueNames(hs) && Subtracted(hs, name, n, cls).Ok?
    ensures UniqueNames(Subtracted(hs, name, n, cls).value)
  {
    var i := IndexOf(hs, name).value;
    if hs[i].numAssets - n == 0.0 {
      RemovalKeepsUnique(hs, i);
    }
  }

  lemma RemovalKeepsUnique(hs: seq<Holding>, i: nat)
    requires UniqueNames(hs) && i < |hs|
    ensures UniqueNames(hs[..i] + hs[i + 1..])
  {
    var r := hs[..i] + hs[i + 1..];
    forall a, b | 0 <= a < b < |r| ensures r[a].name != r[b].name {
      var a', b' := if a < i then a else a + 1, if b < i then b else b + 1;
      assert r[a] == hs[a'] && r[b] == hs[b'];
    }
  }

  // ---------------------------------------------------------------- valuation

  /** The price of one unit: an option contract covers 100 shares. */
  function UnitPrice(cls: AssetClass, price: real): real {
    if cls == Options then price * 100.0 else price
  }

  /** The market value of a holding at `price` per share. */
  function Worth(h: Holding, price: real): real {
    h.numAssets * UnitPrice(h.assetClass, price)
  }

  lemma WorthAtUnitPrice(h: Holding, price: real, unit: real)
    requires unit == UnitPrice(h.assetClass, price)
    ensures h.numAssets * unit == Worth(h, price)
  {
  }

  /** One holding's market value (loop body of `get_portfolio_value`). A crypto
      holding's series is the hourly frame of its strategy, which has a Symbol
      column; `get_stock_price_static` then looks up `str(date)` of the `date` class
      itself, which raises KeyError. */
  function HoldingValue(h: Holding, strategies: map<string, PriceSeries>, day: int,
                        column: string): (r: Result<real>)
    ensures h.name !in strategies ==> r == Fail(MissingSeries(h.name))
    ensures r.Ok? <==> h.name in strategies && h.assetClass != Crypto &&
                       Resolve(strategies[h.name], day, column).Ok?
  {
    if h.name !in strategies then Fail(MissingSeries(h.name))
    else if h.assetClass == Crypto then Fail(PriceUnavailable)
    else match Resolve(strategies[h.name], day, column)
      case Fail(e) => Fail(e)
      case Ok(p) => Ok(Worth(h, p))
  }

  lemma HoldingValuePriced(h: Holding, strategies: map<string, PriceSeries>, day: int, column: string)
    requires h.name in strategies && h.assetClass != Crypto && Resolve(strategies[h.name], day, column).Ok?
    ensures HoldingValue(h, strategies, day, column) ==
            Ok(Worth(h, Resolve(strategies[h.name], day, column).value))
  {
  }

  /** Σ num_assets × price × (100 for options) over the holdings, or the first
      holding's failure. */
  function HoldingsValue(hs: seq<Holding>, strategies: map<string, PriceSeries>, day: int,
                         column: string): Result<real>
  {
    if hs == [] then Ok(0.0)
    else match HoldingsValue(hs[..|hs| - 1], strategies, day, column)
      case Fail(e) => Fail(e)
      case Ok(v) =>
        match HoldingValue(hs[|hs| - 1], strategies, day, column)
        case Fail(e) => Fail(e)
        case Ok(w) => Ok(v + w)
  }

  /** Valuing one more holding adds its value, unless the list has already failed. */
  lemma HoldingsValueSnoc(hs: seq<Holding>, h: Holding, strategies: map<string, PriceSeries>, day: int,
                          column: string)
    requires HoldingsValue(hs, strategies, day, column).Ok? && HoldingValue(h, strategies, day, column).Ok?
    ensures var r := HoldingsValue(hs + [h], strategies, day, column);
            r.Ok? && r.value == HoldingsValue(hs, strategies, day, column).value +
                                HoldingValue(h, strategies, day, column).value
  {
    var longer := hs + [h];
    assert longer[..|longer| - 1] == hs && longer[|longer| - 1] == h;
  }

  /** `contains`: some holding has `asset` as its underlying. */
  predicate ContainsUnderlying(hs: seq<Holding>, asset: string) {
    exists i :: 0 <= i < |hs| && UnderlyingName(hs[i].name) == asset
  }

  /** `get_current_allocation`: gated on the underlying name, but only holdings named
      exactly `asset` are summed, each at `lastPrice`. */
  function AllocationValue(hs: seq<Holding>, asset: string, lastPrice: real): real {
    if ContainsUnderlying(hs, asset) then Position(hs, asset) * lastPrice else 0.0
  }
}
