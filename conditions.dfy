/** The selling/buying condition predicates. Every `Condition` subclass keeps a set of
    holdings to sell; holdings hash and compare by name, so the set holds names. The
    condition's portfolio reference becomes the holdings list passed to each scan. */
module Conditions {
  import opened Common
  import opened Prices
  import opened Holdings

  /** Which subclass a condition is, with its constructor arguments. */
  datatype Kind =
    | UpNPercent(n: real)
    | DownNPercent(n: real)
    | LowForPeriod(sd: real, weekLength: nat)
    | HighForPeriod(sd: real, weekLength: nat)
    | MoreBuyToOpen(asset: string)

  /** The magnitude of a real number. */
  function Abs(x: real): (r: real)
    ensures r >= 0.0 && (r == x || r == -x)
  {
    if x < 0.0 then -x else x
  }

  // ---------------------------------------------------------------- price-ratio scans

  /** Whether an up/down condition selects holding `h` at `price`: the ratio of the
      price to the magnitude of the purchase price, compared with `n`. */
  predicate Flags(kind: Kind, h: Holding, price: real)
    requires kind.UpNPercent? || kind.DownNPercent?
    requires h.initialPrice != 0.0
  {
    var ratio := Abs(price / Abs(h.initialPrice));
    if kind.UpNPercent? then ratio >= kind.n else ratio < kind.n
  }

  predicate AllPriced(hs: seq<Holding>) {
    forall i :: 0 <= i < |hs| ==> hs[i].initialPrice != 0.0
  }

  /** The names a complete scan adds to the set. */
  function FlaggedNames(kind: Kind, hs: seq<Holding>, price: real): (r: set<string>)
    requires kind.UpNPercent? || kind.DownNPercent?
    requires AllPriced(hs)
    ensures forall nm :: nm in r <==> exists i :: 0 <= i < |hs| && hs[i].name == nm && Flags(kind, hs[i], price)
  {
    if hs == [] then {}
    else
      var rest := FlaggedNames(kind, hs[..|hs| - 1], price);
      var h := hs[|hs| - 1];
      assert forall i :: 0 <= i < |hs| - 1 ==> hs[..|hs| - 1][i] == hs[i];
      if Flags(kind, h, price) then rest + {h.name} else rest
  }

  /** With the same threshold, every holding is flagged by exactly one of the up and
      the down condition: ratios at or above `n` go up, the rest go down. */
  lemma {:induction false} UpDownPartition(n: real, hs: seq<Holding>, price: real)
    requires AllPriced(hs) && UniqueNames(hs)
    ensures FlaggedNames(UpNPercent(n), hs, price) + FlaggedNames(DownNPercent(n), hs, price)
            == set i | 0 <= i < |hs| :: hs[i].name
    ensures FlaggedNames(UpNPercent(n), hs, price) * FlaggedNames(DownNPercent(n), hs, price) == {}
  {
    var up, down := FlaggedNames(UpNPercent(n), hs, price), FlaggedNames(DownNPercent(n), hs, price);
    forall nm | nm in up ensures nm !in down {
      var i :| 0 <= i < |hs| && hs[i].name == nm && Flags(UpNPercent(n), hs[i], price);
      assert forall j :: 0 <= j < |hs| && hs[j].name == nm ==> j == i;
    }
    forall nm | nm in set i | 0 <= i < |hs| :: hs[i].name ensures nm in up + down {
      var i :| 0 <= i < |hs| && hs[i].name == nm;
      if !Flags(UpNPercent(n), hs[i], price) {
        assert Flags(DownNPercent(n), hs[i], price);
      }
    }
  }

  lemma FlaggedNamesStep(kind: Kind, hs: seq<Holding>, i: nat, price: real)
    requires kind.UpNPercent? || kind.DownNPercent?
    requires i < |hs| && AllPriced(hs[..i]) && hs[i].initialPrice != 0.0
    ensures AllPriced(hs[..i + 1])
    ensures FlaggedNames(kind, hs[..i + 1], price) ==
            FlaggedNames(kind, hs[..i], price) + (if Flags(kind, hs[i], price) then {hs[i].name} else {})
  {
    assert hs[..i + 1][..i] == hs[..i];
  }

  // ---------------------------------------------------------------- rolling window

  predicate HasClose(window: seq<Row>) {
    forall i :: 0 <= i < |window| ==> "Close" in window[i].prices
  }

  /** The window's "Close" column. */
  function Closes(window: seq<Row>): (r: seq<real>)
    requires HasClose(window)
    ensures |r| == |window| && forall i :: 0 <= i < |r| ==> r[i] == window[i].prices["Close"]
  {
    seq(|window|, i requires 0 <= i < |window| => window[i].prices["Close"])
  }

  function SeqMin(s: seq<real>): (m: real)
    requires s != []
    ensures (exists i :: 0 <= i < |s| && s[i] == m) && forall i :: 0 <= i < |s| ==> m <= s[i]
  {
    if |s| == 1 then s[0]
    else
      var m := SeqMin(s[1..]);
      assert forall i :: 1 <= i < |s| ==> s[i] == s[1..][i - 1];
      if s[0] <= m then s[0] else m
  }

  function SeqMax(s: seq<real>): (m: real)
    requires s != []
    ensures (exists i :: 0 <= i < |s| && s[i] == m) && forall i :: 0 <= i < |s| ==> s[i] <= m
  {
    if |s| == 1 then s[0]
    else
      var m := SeqMax(s[1..]);
      assert forall i :: 1 <= i < |s| ==> s[i] == s[1..][i - 1];
      if m <= s[0] then s[0] else m
  }

  /** `IsLowForPeriod.is_true_stocks`: the price is below the window's lowest close
      plus `sd` standard deviations. An empty window or one without a "Close"
      column raises KeyError inside the `try`, which the predicate answers with false. */
  predicate LowHolds(window: seq<Row>, price: real, sd: real, std: seq<real> -> real) {
    window != [] && HasClose(window) &&
    price < SeqMin(Closes(window)) + sd * std(Closes(window))
  }

  /** `IsHighForPeriod.is_true_stocks`: the price is above the highest close plus
      `sd` standard deviations. */
  predicate HighHolds(window: seq<Row>, price: real, sd: real, std: seq<real> -> real) {
    window != [] && HasClose(window) &&
    price > SeqMax(Closes(window)) + sd * std(Closes(window))
  }

  /** Low for the period means below EVERY close of the window (shifted by the band). */
  lemma LowMeansBelowEveryClose(window: seq<Row>, price: real, sd: real, std: seq<real> -> real)
    requires window != [] && HasClose(window)
    ensures LowHolds(window, price, sd, std) <==>
            forall i :: 0 <= i < |window| ==> price < Closes(window)[i] + sd * std(Closes(window))
  {
    var c := Closes(window);
    var k :| 0 <= k < |c| && c[k] == SeqMin(c);
    assert price < c[k] + sd * std(c) ==> LowHolds(window, price, sd, std);
  }

  /** High for the period means above EVERY close of the window (shifted by the band). */
  lemma HighMeansAboveEveryClose(window: seq<Row>, price: real, sd: real, std: seq<real> -> real)
    requires window != [] && HasClose(window)
    ensures HighHolds(window, price, sd, std) <==>
            forall i :: 0 <= i < |window| ==> price > Closes(window)[i] + sd * std(Closes(window))
  {
    var c := Closes(window);
    var k :| 0 <= k < |c| && c[k] == SeqMax(c);
    assert price > c[k] + sd * std(c) ==> HighHolds(window, price, sd, std);
  }

  /** The window after `add_datapoint`: the oldest row dropped (nothing to drop from
      an empty window), the new row appended. */
  function Shifted(window: seq<Row>, row: Row): (r: seq<Row>)
    ensures window != [] ==> |r| == |window| && r[..|r| - 1] == window[1..]
    ensures r != [] && r[|r| - 1] == row
  {
    (if window == [] then [] else window[1..]) + [row]
  }

  /** After `k` datapoints on a full window, the window is the last `weekLength` rows
      of the old window followed by the new rows. */
  lemma {:induction false} ShiftedKeepsLastRows(window: seq<Row>, rows: seq<Row>)
    requires |rows| <= |window|
    ensures ShiftedAll(window, rows) == window[|rows|..] + rows
    decreases |rows|
  {
    if rows != [] {
      var init := rows[..|rows| - 1];
      ShiftedKeepsLastRows(window, init);
      assert ShiftedAll(window, init) == window[|init|..] + init;
      assert rows == init + [rows[|rows| - 1]];
      assert (window[|init|..] + init)[1..] == window[|rows|..] + init;
    }
  }

  function ShiftedAll(window: seq<Row>, rows: seq<Row>): seq<Row>
  {
    if rows == [] then window else Shifted(ShiftedAll(window, rows[..|rows| - 1]), rows[|rows| - 1])
  }

  // ---------------------------------------------------------------- the condition

  class Condition {
    const kind: Kind
    /** `_data`: the series a time-period condition warms up from. */
    const data: PriceSeries
    /** `_holdings_to_sell`. */
    var holdingsToSell: set<string>
    /** `_changing_week_data`. */
    var window: seq<Row>

    constructor(kind: Kind, data: PriceSeries)
      ensures this.kind == kind && this.data == data
      ensures holdingsToSell == {} && window == []
    {
      this.kind := kind;
      this.data := data;
      holdingsToSell := {};
      window := [];
    }

    /** `has_holdings_to_sell`: false in the base class, true for the conditions that
        scan the holdings. */
    predicate HasHoldingsToSell()
    {
      kind.UpNPercent? || kind.DownNPercent? || kind.MoreBuyToOpen?
    }

    /** `delete_holding`: `set.remove` raises KeyError for a name not in the set. */
    method DeleteHolding(name: string) returns (r: Result<bool>)
      modifies this
      ensures name in old(holdingsToSell) ==> r.Ok? && holdingsToSell == old(holdingsToSell) - {name}
      ensures name !in old(holdingsToSell) ==> r == Fail(NotInSellSet(name)) && holdingsToSell == old(holdingsToSell)
      ensures window == old(window)
    {
      if name in holdingsToSell {
        holdingsToSell := holdingsToSell - {name};
        r := Ok(true);
      } else {
        r := Fail(NotInSellSet(name));
      }
    }

    /** `clear_holdings_to_sell`. */
    method ClearHoldingsToSell()
      modifies this
      ensures holdingsToSell == {} && window == old(window)
    {
      holdingsToSell := {};
    }

    /** `IsUpNPercent.is_true` / `IsDownNPercent.is_true`: every holding whose price
        ratio passes the threshold joins the set; the answer is whether any did. A
        zero purchase price is taken as a failed scan (a ZeroDivisionError for a
        Python float, which the `except KeyError` does not catch). */
    method ScanHoldings(hs: seq<Holding>, price: real) returns (r: Result<bool>)
      requires kind.UpNPercent? || kind.DownNPercent?
      modifies this
      ensures r.Fail? <==> !AllPriced(hs)
      ensures r.Ok? ==> holdingsToSell == old(holdingsToSell) + FlaggedNames(kind, hs, price)
      ensures r.Ok? ==> (r.value <==> exists i :: 0 <= i < |hs| && Flags(kind, hs[i], price))
      ensures window == old(window)
    {
      var any := false;
      var i := 0;
      while i < |hs|
        invariant 0 <= i <= |hs| && AllPriced(hs[..i])
        invariant holdingsToSell == old(holdingsToSell) + FlaggedNames(kind, hs[..i], price)
        invariant any <==> exists k :: 0 <= k < i && Flags(kind, hs[k], price)
        invariant window == old(window)
      {
        var h := hs[i];
        var initial := h.initialPrice;
        if initial < 0.0 {
          initial := initial * -1.0;
        }
        if initial == 0.0 {
          return Fail(DivisionByZero);
        }
        var ratio := Abs(price / initial);
        assert initial == Abs(h.initialPrice);
        FlaggedNamesStep(kind, hs, i, price);
        if (kind.UpNPercent? && ratio >= kind.n) || (kind.DownNPercent? && ratio < kind.n) {
          any := true;
          holdingsToSell := holdingsToSell + {h.name};
        }
        i := i + 1;
      }
      assert hs[..i] == hs;
      r := Ok(any);
    }

    /** `HasMoreBuyToOpen.is_true`: among holdings on the asset, more long legs
        (quantity at least zero) than short legs. */
    method MoreLongThanShort(hs: seq<Holding>) returns (r: bool)
      requires kind.MoreBuyToOpen?
      ensures r <==> |LegsOn(hs, kind.asset, true)| > |LegsOn(hs, kind.asset, false)|
    {
      var longs, shorts := 0, 0;
      var i := 0;
      while i < |hs|
        invariant 0 <= i <= |hs|
        invariant longs == |LegsOn(hs[..i], kind.asset, true)|
        invariant shorts == |LegsOn(hs[..i], kind.asset, false)|
      {
        assert hs[..i + 1][..i] == hs[..i];
        if UnderlyingName(hs[i].name) == kind.asset {
          if hs[i].numAssets < 0.0 {
            shorts := shorts + 1;
          } else {
            longs := longs + 1;
          }
        }
        i := i + 1;
      }
      assert hs[..i] == hs;
      r := longs > shorts;
    }

    /** `TimePeriodCondition.warm_up_data`: only an empty window is refilled, with the
        series' last `weekLength` rows in chronological order; the loop walks back
        with negative `iloc` and raises IndexError when the series is too short. */
    method WarmUpData() returns (r: Result<bool>)
      requires kind.LowForPeriod? || kind.HighForPeriod?
      modifies this
      ensures old(window) != [] ==> r.Ok? && window == old(window)
      ensures old(window) == [] && |data| < kind.weekLength ==> r == Fail(NotEnoughRows)
      ensures old(window) == [] && kind.weekLength <= |data| ==>
                r.Ok? && window == data[|data| - kind.weekLength..]
      ensures holdingsToSell == old(holdingsToSell)
    {
      if window != [] {
        return Ok(true);
      }
      var arr: seq<Row> := [];
      while |arr| < kind.weekLength
        invariant |arr| <= kind.weekLength && |arr| <= |data|
        invariant forall j :: 0 <= j < |arr| ==> arr[j] == data[|data| - 1 - j]
      {
        if |arr| == |data| {
          return Fail(NotEnoughRows);
        }
        arr := arr + [data[|data| - 1 - |arr|]];
      }
      window := seq(|arr|, j requires 0 <= j < |arr| => arr[|arr| - 1 - j]);
      r := Ok(true);
    }

    /** `TimePeriodCondition.add_datapoint`; a window left shorter than `weekLength`
        is the `assert False`. */
    method AddDatapoint(row: Row) returns (r: Result<bool>)
      requires kind.LowForPeriod? || kind.HighForPeriod?
      modifies this
      ensures window == Shifted(old(window), row)
      ensures r.Fail? <==> |window| < kind.weekLength
      ensures r.Fail? ==> r == Fail(WindowTooShort)
      ensures holdingsToSell == old(holdingsToSell)
    {
      window := (if window == [] then [] else window[1..]) + [row];
      if |window| < kind.weekLength {
        return Fail(WindowTooShort);
      }
      r := Ok(true);
    }

    /** `IsLowForPeriod.is_true` / `IsHighForPeriod.is_true`: warm up, then compare
        the price with the window. `std` stands for pandas' standard deviation. */
    method PeriodExtreme(price: real, std: seq<real> -> real) returns (r: Result<bool>)
      requires kind.LowForPeriod? || kind.HighForPeriod?
      modifies this
      ensures old(window) == [] && |data| < kind.weekLength <==> r.Fail?
      ensures r.Ok? && kind.LowForPeriod? ==> (r.value <==> LowHolds(window, price, kind.sd, std))
      ensures r.Ok? && kind.HighForPeriod? ==> (r.value <==> HighHolds(window, price, kind.sd, std))
      ensures r.Ok? ==> window == if old(window) == [] then data[|data| - kind.weekLength..] else old(window)
      ensures holdingsToSell == old(holdingsToSell)
    {
      r := WarmUpData();
      if r.Fail? {
        return;
      }
      if kind.LowForPeriod? {
        r := Ok(LowHolds(window, price, kind.sd, std));
      } else {
        r := Ok(HighHolds(window, price, kind.sd, std));
      }
    }
  }

  /** A holding is a leg on `asset` of the given side: long when `long`, short otherwise. */
  predicate IsLeg(h: Holding, asset: string, long: bool) {
    UnderlyingName(h.name) == asset && (h.numAssets >= 0.0 <==> long)
  }

  function OnSide(asset: string, long: bool): Holding -> bool {
    (h: Holding) => IsLeg(h, asset, long)
  }

  function OnUnderlying(asset: string): Holding -> bool {
    (h: Holding) => UnderlyingName(h.name) == asset
  }

  /** The holdings on `asset` that are long (`long`) or short (not `long`), as
      indices in increasing order: every such holding once, and no other. */
  function LegsOn(hs: seq<Holding>, asset: string, long: bool): (r: seq<nat>)
    ensures forall k :: 0 <= k < |r| ==> r[k] < |hs| && IsLeg(hs[r[k]], asset, long)
    ensures forall k :: 0 <= k < |hs| && IsLeg(hs[k], asset, long) ==> k in r
    ensures forall a, b :: 0 <= a < b < |r| ==> r[a] < r[b]
  {
    IndicesWhere(hs, OnSide(asset, long))
  }

  /** Every holding on the asset is counted exactly once, as long or as short. */
  lemma LegsCoverAsset(hs: seq<Holding>, asset: string)
    ensures |LegsOn(hs, asset, true)| + |LegsOn(hs, asset, false)| == |OnAsset(hs, asset)|
  {
    IndicesSplit(hs, OnSide(asset, true), OnSide(asset, false), OnUnderlying(asset));
  }

  /** The indices of the holdings whose underlying is `asset`, in increasing order. */
  function OnAsset(hs: seq<Holding>, asset: string): (r: seq<nat>)
    ensures forall k :: 0 <= k < |r| ==> r[k] < |hs| && UnderlyingName(hs[r[k]].name) == asset
    ensures forall k :: 0 <= k < |hs| && UnderlyingName(hs[k].name) == asset ==> k in r
    ensures forall a, b :: 0 <= a < b < |r| ==> r[a] < r[b]
  {
    IndicesWhere(hs, OnUnderlying(asset))
  }
}
