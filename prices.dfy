/** Price series and `HoldingsStrategy.get_stock_price_static`, the price resolver.
    A series stands for the pandas frame the engine reads: one row per trading day
    (keyed by the day's ordinal, as the frame is keyed by the day's string) holding a
    price per column label ("Open", "Close", ...). */
module Prices {
  import opened Common
  import opened Numeric

  datatype Row = Row(day: int, prices: map<string, real>)

  type PriceSeries = seq<Row>

  /** The frame's index: one row per day, in date order. */
  predicate Chronological(s: PriceSeries) {
    forall i, j :: 0 <= i < j < |s| ==> s[i].day < s[j].day
  }

  /** The position of the first row for `day`, as `df.loc[str(day)]` finds it. */
  function FindRow(s: PriceSeries, day: int): (r: Option<nat>)
    ensures r.Some? ==> r.value < |s| && s[r.value].day == day
    ensures r.Some? ==> forall k :: 0 <= k < r.value ==> s[k].day != day
    ensures r.None? ==> forall k :: 0 <= k < |s| ==> s[k].day != day
  {
    FirstWith(s, (row: Row) => row.day, day)
  }

  /** `df.loc[str(day)].loc[column]`, None where it raises KeyError. */
  function Lookup(s: PriceSeries, day: int, column: string): (r: Option<real>)
  {
    match FindRow(s, day)
    case None => None
    case Some(i) => if column in s[i].prices then Some(s[i].prices[column]) else None
  }

  function Last(s: PriceSeries): Row
    requires |s| > 0
  {
    s[|s| - 1]
  }

  /** `get_stock_price_static` on a frame without a Symbol column: the price at
      (`current`, `column`) rounded to cents. On a miss it returns the last row's price
      once the series has ended before `current`, otherwise it tries up to five days
      back, then interpolates between the rows around `current`. */
  function Resolve(s: PriceSeries, current: int, column: string): (r: Result<real>)
    ensures Lookup(s, current, column).Some? ==> r == Ok(RoundCents(Lookup(s, current, column).value))
    ensures s == [] ==> r.Fail?
  {
    ResolveFrom(s, current, column, 0)
  }

  /** One turn of the source's `while True` loop, at `back` days before `current`.
      Every price it returns has been rounded to cents. */
  function ResolveFrom(s: PriceSeries, current: int, column: string, back: nat): (r: Result<real>)
    requires back <= 5
    ensures s == [] ==> r.Fail?
    ensures r.Ok? ==> RoundCents(r.value) == r.value
    decreases 5 - back
  {
    match Lookup(s, current - back, column)
    case Some(p) => RoundCentsIdempotent(p); Ok(RoundCents(p))
    case None =>
      if |s| == 0 then Fail(PriceUnavailable)
      else if Last(s).day < current then
        match Lookup(s, Last(s).day, column)
        case Some(p) => RoundCentsIdempotent(p); Ok(RoundCents(p))
        case None => Fail(PriceUnavailable)
      else if back == 5 then Interpolate(s, current, column)
      else ResolveFrom(s, current, column, back + 1)
  }

  /** The first position whose day is not before `day` (the source's inner
      `while current_date > date_obj` walk). */
  function FirstAtOrAfter(s: PriceSeries, day: int): (r: Option<nat>)
    ensures r.Some? ==> r.value < |s| && s[r.value].day >= day
    ensures r.Some? ==> forall k :: 0 <= k < r.value ==> s[k].day < day
    ensures r.None? ==> forall k :: 0 <= k < |s| ==> s[k].day < day
  {
    if s == [] then None
    else if s[0].day >= day then Some(0)
    else match FirstAtOrAfter(s[1..], day)
      case None => None
      case Some(i) => Some(i + 1)
  }

  /** The fallback estimate: the first row on or after `current` averaged with the
      row before it (the row alone when it is the first), rounded to cents. With
      every row before `current` there is nothing to interpolate from. */
  function Interpolate(s: PriceSeries, current: int, column: string): (r: Result<real>)
    ensures FirstAtOrAfter(s, current).None? ==> r.Fail?
    ensures r.Ok? ==> RoundCents(r.value) == r.value
  {
    match FirstAtOrAfter(s, current)
    case None => Fail(PriceUnavailable)
    case Some(j) =>
      if j == 0 then
        (match Lookup(s, s[0].day, column)
         case Some(p) => RoundCentsIdempotent(p); Ok(RoundCents(p))
         case None => Fail(PriceUnavailable))
      else
        match (Lookup(s, s[j].day, column), Lookup(s, s[j - 1].day, column))
        case (Some(a), Some(b)) => RoundCentsIdempotent((a + b) / 2.0); Ok(RoundCents((a + b) / 2.0))
        case _ => Fail(PriceUnavailable)
  }

  // ---------------------------------------------------------------- properties

  /** In a chronological series a day's lookup reads that day's own row. */
  lemma LookupRow(s: PriceSeries, i: nat, column: string)
    requires Chronological(s) && i < |s|
    ensures Lookup(s, s[i].day, column) ==
            (if column in s[i].prices then Some(s[i].prices[column]) else None)
  {
    assert FindRow(s, s[i].day).Some?;
  }

  /** Past the end of the series the resolver returns the last row's price. */
  lemma ResolveAfterEnd(s: PriceSeries, current: int, column: string)
    requires Chronological(s) && |s| > 0 && Last(s).day < current
    ensures Resolve(s, current, column) ==
            (if column in Last(s).prices then Ok(RoundCents(Last(s).prices[column]))
             else Fail(PriceUnavailable))
  {
    assert FindRow(s, current).None?;
    LookupRow(s, |s| - 1, column);
  }

  /** Within the series, a miss on `current` falls back to the nearest of the five
      days before it that has a price. */
  lemma {:induction false} ResolveLooksBack(s: PriceSeries, current: int, column: string,
                                            back: nat, k: nat)
    requires |s| > 0 && Last(s).day >= current
    requires back <= k <= 5
    requires forall d :: current - k < d <= current - back ==> Lookup(s, d, column).None?
    requires Lookup(s, current - k, column).Some?
    ensures ResolveFrom(s, current, column, back) == Ok(RoundCents(Lookup(s, current - k, column).value))
    decreases k - back
  {
    if back < k {
      assert Lookup(s, current - back, column).None?;
      ResolveLooksBack(s, current, column, back + 1, k);
    }
  }

  /** When neither `current` nor any of the five days before it has a price, and the
      series has not ended, the resolver interpolates. */
  lemma {:induction false} ResolveFallsBackToInterpolation(s: PriceSeries, current: int,
                                                           column: string, back: nat)
    requires |s| > 0 && Last(s).day >= current && back <= 5
    requires forall d :: current - 5 <= d <= current - back ==> Lookup(s, d, column).None?
    ensures ResolveFrom(s, current, column, back) == Interpolate(s, current, column)
    decreases 5 - back
  {
    assert Lookup(s, current - back, column).None?;
    if back < 5 {
      ResolveFallsBackToInterpolation(s, current, column, back + 1);
    }
  }

  /** An interpolated price comes from the two rows that straddle `current`, and
      before rounding lies between their prices. */
  lemma InterpolationBetweenNeighbours(s: PriceSeries, current: int, column: string)
    requires Chronological(s)
    requires FirstAtOrAfter(s, current).Some? && FirstAtOrAfter(s, current).value > 0
    requires Interpolate(s, current, column).Ok?
    ensures var j := FirstAtOrAfter(s, current).value;
            s[j - 1].day < current <= s[j].day &&
            column in s[j].prices && column in s[j - 1].prices &&
            var a, b := s[j].prices[column], s[j - 1].prices[column];
            var mid := (a + b) / 2.0;
            Interpolate(s, current, column) == Ok(RoundCents(mid)) &&
            (a <= mid <= b || b <= mid <= a)
  {
    var j := FirstAtOrAfter(s, current).value;
    LookupRow(s, j, column);
    LookupRow(s, j - 1, column);
  }
}
