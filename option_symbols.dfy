/** How `Portfolio.get_options_data` names the option contract it fetches: the strike
    rounded to a price band, the third-Friday expiration, and the symbol
    UNDERLYING + YYMMDD + C/P + strike in thousandths on 8 digits (the OCC option
    symbology layout). Also the reverse parse `Holdings.__init__` applies to an option
    name to find its expiration. */
module OptionSymbols {
  import opened Common
  import opened Numeric
  import opened Calendar

  // ---------------------------------------------------------------- digit strings

  predicate IsDigit(c: char) { '0' <= c <= '9' }

  predicate AllDigits(s: string) { forall i :: 0 <= i < |s| ==> IsDigit(s[i]) }

  function DigitChar(k: int): (c: char)
    requires 0 <= k < 10
    ensures IsDigit(c) && c as int - '0' as int == k
  {
    (k + '0' as int) as char
  }

  /** The value of a string of decimal digits, like `int(s)`. */
  function Pow10(k: nat): (p: nat)
    ensures p >= 1
  {
    if k == 0 then 1 else 10 * Pow10(k - 1)
  }

  function DigitsValue(s: string): (v: nat)
    requires AllDigits(s)
    ensures v < Pow10(|s|)
  {
    if s == [] then 0 else DigitsValue(s[..|s| - 1]) * 10 + (s[|s| - 1] as int - '0' as int)
  }

  /** `str(n)` for a non-negative integer. */
  function NatToString(n: nat): (s: string)
    ensures AllDigits(s) && |s| >= 1
    ensures DigitsValue(s) == n
  {
    if n < 10 then [DigitChar(n)]
    else
      var s := NatToString(n / 10) + [DigitChar(n % 10)];
      assert s[..|s| - 1] == NatToString(n / 10);
      s
  }

  /** `str(n)` for any integer. */
  function IntToString(n: int): (s: string)
    ensures n >= 0 ==> AllDigits(s) && DigitsValue(s) == n
    ensures n < 0 ==> |s| >= 2 && s[0] == '-'
  {
    if n >= 0 then NatToString(n) else "-" + NatToString(-n)
  }

  /** `while len(s) < width: s = '0' + s`: the string behind enough zeros to fill
      `width`, or unchanged when it is already that long. */
  function PadZeros(s: string, width: nat): (r: string)
    ensures |r| == if |s| < width then width else |s|
    ensures r == Zeros(|r| - |s|) + s
    decreases width - |s|
  {
    if |s| < width then
      var r := PadZeros("0" + s, width);
      ZerosCons(width - |s|);
      assert Zeros(width - |s| - 1) + ("0" + s) == Zeros(width - |s|) + s;
      r
    else
      assert Zeros(0) + s == s;
      s
  }

  lemma {:induction false} LeadingZerosKeepValue(z: nat, s: string)
    requires AllDigits(s)
    ensures AllDigits(Zeros(z) + s) && DigitsValue(Zeros(z) + s) == DigitsValue(s)
    decreases |s|
  {
    var t := Zeros(z) + s;
    if s == [] {
      assert t == Zeros(z);
      ZerosValue(z);
    } else {
      assert t[..|t| - 1] == Zeros(z) + s[..|s| - 1];
      LeadingZerosKeepValue(z, s[..|s| - 1]);
    }
  }

  function Zeros(z: nat): (r: string)
    ensures |r| == z && forall i :: 0 <= i < z ==> r[i] == '0'
  {
    if z == 0 then "" else "0" + Zeros(z - 1)
  }

  lemma {:induction false} ZerosValue(z: nat)
    ensures AllDigits(Zeros(z)) && DigitsValue(Zeros(z)) == 0
  {
    if z > 0 {
      assert Zeros(z)[..z - 1] == Zeros(z - 1);
      ZerosValue(z - 1);
    }
  }

  /** The strike field: `str(int(strike))` padded to 5 characters, then "000". */
  function StrikeField(strike: int): (r: string)
  {
    PadZeros(IntToString(strike), 5) + "000"
  }

  /** A strike from 0 up to 99999 becomes exactly eight digits whose value is the
      strike in thousandths of a dollar. */
  lemma StrikeFieldValue(strike: int)
    requires 0 <= strike < 100000
    ensures |StrikeField(strike)| == 8
    ensures AllDigits(StrikeField(strike))
    ensures DigitsValue(StrikeField(strike)) == strike * 1000
  {
    var s := IntToString(strike);
    NatDigitsAtMostFive(strike);
    var p := PadZeros(s, 5);
    LeadingZerosKeepValue(5 - |s|, s);
    AppendDigit(p, '0');
    AppendDigit(p + "0", '0');
    AppendDigit(p + "00", '0');
    assert p + "0" + "0" == p + "00";
    assert p + "00" + "0" == p + "000";
  }

  lemma ZerosCons(z: nat)
    requires z >= 1
    ensures Zeros(z) == Zeros(z - 1) + "0"
  {
    var a, b := Zeros(z), Zeros(z - 1) + "0";
    assert |a| == |b|;
    forall i | 0 <= i < z ensures a[i] == b[i] { }
  }

  lemma NatDigitsAtMostFive(n: nat)
    requires n < 100000
    ensures |NatToString(n)| <= 5
  {
    NatLength(n, 5);
  }

  /** A number below 10^k is written with at most k digits. */
  lemma {:induction false} NatLength(n: nat, k: nat)
    requires 1 <= k && n < Pow10(k)
    ensures |NatToString(n)| <= k
  {
    if n >= 10 {
      NatLength(n / 10, k - 1);
    }
  }

  /** Appending a digit multiplies the value by ten and adds the digit. */
  lemma AppendDigit(s: string, c: char)
    requires AllDigits(s) && IsDigit(c)
    ensures AllDigits(s + [c])
    ensures DigitsValue(s + [c]) == DigitsValue(s) * 10 + (c as int - '0' as int)
  {
    assert (s + [c])[..|s|] == s;
  }

  // ---------------------------------------------------------------- strike

  datatype OptionType = Call | Put

  function TypeLetter(t: OptionType): char {
    if t == Call then 'C' else 'P'
  }

  /** `strikes_above` is counted downwards for puts. */
  function SignedStrikesAbove(strikesAbove: int, t: OptionType): int {
    if t == Put then -strikesAbove else strikesAbove
  }

  /** The width of the strike band the underlying's price falls in. */
  function StrikeBand(lastPrice: real): (w: int)
    ensures w == 1 || w == 5 || w == 10
  {
    if lastPrice < 20.0 then 1 else if lastPrice < 100.0 then 5 else 10
  }

  /** The rounded strike of get_options_data: a multiple of the band width, at most half
      a band from the price moved by `strikes_above` bands (counted down for puts). */
  function Strike(lastPrice: real, strikesAbove: int, t: OptionType): (strike: int)
    ensures var w := StrikeBand(lastPrice);
            var target := lastPrice + (w * SignedStrikesAbove(strikesAbove, t)) as real;
            strike % w == 0 &&
            target - w as real / 2.0 <= strike as real <= target + w as real / 2.0
  {
    var k := SignedStrikesAbove(strikesAbove, t);
    if lastPrice < 20.0 then
      RoundHalfEvenNearest(lastPrice + k as real);
      RoundHalfEven(lastPrice + k as real)
    else if lastPrice < 100.0 then
      RoundToBand(lastPrice + (5 * k) as real, 5);
      5 * RoundHalfEven((lastPrice + (5 * k) as real) / 5.0)
    else
      RoundToBand(lastPrice + (10 * k) as real, 10);
      10 * RoundHalfEven((lastPrice + (10 * k) as real) / 10.0)
  }

  /** `w * round(x / w)` is a multiple of `w` within half a band of `x`. */
  lemma RoundToBand(x: real, w: int)
    requires w == 5 || w == 10
    ensures var s := w * RoundHalfEven(x / w as real);
            s % w == 0 && x - w as real / 2.0 <= s as real <= x + w as real / 2.0
  {
    RoundHalfEvenNearest(x / w as real);
    if w == 5 {
      assert x / 5.0 - 1.0 / 2.0 <= RoundHalfEven(x / 5.0) as real <= x / 5.0 + 1.0 / 2.0;
    } else {
      assert x / 10.0 - 1.0 / 2.0 <= RoundHalfEven(x / 10.0) as real <= x / 10.0 + 1.0 / 2.0;
    }
  }

  // ---------------------------------------------------------------- expiration

  predicate IsThirdFriday(d: Date) {
    ValidDate(d) && Weekday(d) == 4 && 15 <= d.day <= 21
  }

  /** `Portfolio._option_expiration`: the first Friday of the date's month plus 14 days,
      which is the month's third Friday. */
  function OptionExpiration(d: Date): (r: Date)
    requires ValidDate(d)
    ensures IsThirdFriday(r) && r.year == d.year && r.month == d.month
  {
    var first := FirstOfMonth(d);
    var toFriday := ((4 - Weekday(first)) + 7) % 7;
    var firstFriday := AddDays(first, toFriday);
    AddDaysWithinMonth(first, toFriday);
    AddDaysWithinMonth(firstFriday, 14);
    FridayArithmetic(Ordinal(first));
    AddDays(firstFriday, 14)
  }

  /** Moving from a day of weekday w by ((4 - w) + 7) % 7 + 14 days lands on a Friday. */
  lemma FridayArithmetic(o: int)
    ensures (o + ((4 - (o + 6) % 7) + 7) % 7 + 14 + 6) % 7 == 4
  {
    var w := (o + 6) % 7;
    var q := (o + 6) / 7;
    assert o + 6 == 7 * q + w;
    var k := ((4 - w) + 7) % 7;
    assert k == if w <= 4 then 4 - w else 11 - w;
    assert o + k + 20 == 7 * q + w + k + 14;
  }

  /** 28 days after a third Friday is a day of the following month. */
  lemma FourWeeksAfterThirdFriday(f: Date)
    requires IsThirdFriday(f)
    ensures AddDays(f, 28).year == FirstOfNextMonth(f).year
    ensures AddDays(f, 28).month == FirstOfNextMonth(f).month
  {
    var dim := DaysInMonth(f.year, f.month);
    var n := 28 - (dim - f.day + 1);
    FirstOfNextMonthOrdinal(f);
    var next := FirstOfNextMonth(f);
    assert AddDays(f, 28) == AddDays(next, n);
    AddDaysWithinMonth(next, n);
  }

  /** Any day of the month after `d`'s lies at least as many days after `d` as the
      rest of `d`'s month plus that day number. */
  lemma NextMonthDayOrdinal(d: Date, e: Date)
    requires ValidDate(d) && ValidDate(e)
    requires e.year == FirstOfNextMonth(d).year && e.month == FirstOfNextMonth(d).month
    ensures Ordinal(e) == Ordinal(d) + DaysInMonth(d.year, d.month) - d.day + e.day
  {
    FirstOfNextMonthOrdinal(d);
  }

  /** The expiration get_options_data picks: this month's third Friday, or next month's
      when fewer than 14 days would remain. */
  function TargetExpiration(current: Date): (r: Date)
    requires ValidDate(current)
    ensures IsThirdFriday(r)
    ensures Ordinal(r) - Ordinal(current) >= 14
    ensures Ordinal(OptionExpiration(current)) - Ordinal(current) >= 14 ==> r == OptionExpiration(current)
    ensures Ordinal(OptionExpiration(current)) - Ordinal(current) < 14 ==>
              r.year == FirstOfNextMonth(current).year && r.month == FirstOfNextMonth(current).month
  {
    var friday := OptionExpiration(current);
    if Ordinal(friday) - Ordinal(current) < 14 then
      var later := AddDays(friday, 28);
      FourWeeksAfterThirdFriday(friday);
      var r := OptionExpiration(later);
      NextMonthDayOrdinal(current, r);
      r
    else friday
  }

  // ---------------------------------------------------------------- symbol

  /** Two-digit zero-padded field of a `datetime` string. */
  function TwoDigits(n: int): (s: string)
    requires 0 <= n < 100
    ensures |s| == 2 && AllDigits(s) && DigitsValue(s) == n
  {
    var s := [DigitChar(n / 10), DigitChar(n % 10)];
    AppendDigit([], DigitChar(n / 10));
    AppendDigit([DigitChar(n / 10)], DigitChar(n % 10));
    assert [] + [DigitChar(n / 10)] == [DigitChar(n / 10)];
    assert [DigitChar(n / 10)] + [DigitChar(n % 10)] == s;
    s
  }

  /** The option symbol, or None where the source's regex
      `20(\d\d)-(\d\d)-(\d\d)` finds no match in `str(friday)` (a year outside
      2000..2099), which makes get_options_data raise. */
  function OptionSymbol(stock: string, lastPrice: real, current: Date, strikesAbove: int,
                        t: OptionType): (r: Option<string>)
    requires ValidDate(current)
    ensures r.Some? <==> 2000 <= TargetExpiration(current).year <= 2099
  {
    var friday := TargetExpiration(current);
    if 2000 <= friday.year <= 2099 then
      Some(SymbolOf(stock, friday, t, Strike(lastPrice, strikesAbove, t)))
    else None
  }

  /** The f-string `f"{stock}{YY}{MM}{DD}{option_type}{str_price}"`. */
  function SymbolOf(stock: string, friday: Date, t: OptionType, strike: int): string
    requires 2000 <= friday.year <= 2099 && 0 <= friday.month < 100 && 0 <= friday.day < 100
  {
    stock + (DateField(friday) + ([TypeLetter(t)] + StrikeField(strike)))
  }

  /** YYMMDD of an expiration in 2000..2099. */
  function DateField(friday: Date): (s: string)
    requires 2000 <= friday.year <= 2099 && 0 <= friday.month < 100 && 0 <= friday.day < 100
    ensures |s| == 6 && AllDigits(s)
    ensures DigitsValue(s[..2]) == friday.year - 2000
    ensures DigitsValue(s[2..4]) == friday.month
    ensures DigitsValue(s[4..]) == friday.day
  {
    var yy, mm, dd := TwoDigits(friday.year - 2000), TwoDigits(friday.month), TwoDigits(friday.day);
    var s := yy + mm + dd;
    assert s[..2] == yy && s[2..4] == mm && s[4..] == dd;
    s
  }

  // ---------------------------------------------------------------- parse back

  /** The leading run of non-digits of a name. */
  function LeadingNonDigits(s: string): (p: string)
    ensures |p| <= |s| && p == s[..|p|]
    ensures forall i :: 0 <= i < |p| ==> !IsDigit(p[i])
    ensures |p| < |s| ==> IsDigit(s[|p|])
  {
    if s == [] || IsDigit(s[0]) then "" else [s[0]] + LeadingNonDigits(s[1..])
  }

  /** `re.match(r"\D+(\d{2})(\d{2})(\d{2})", name)` in `Holdings.__init__`, read as the
      date 20YY-MM-DD (the date itself is not checked here; `datetime` checks it later). */
  function ParseExpiration(name: string): (r: Option<Date>)
    ensures r.Some? ==> 2000 <= r.value.year <= 2099 && 0 <= r.value.month < 100 && 0 <= r.value.day < 100
  {
    var p := |LeadingNonDigits(name)|;
    if p >= 1 && p + 6 <= |name| && AllDigits(name[p..p + 6]) then
      assert forall i :: p <= i < p + 6 ==> IsDigit(name[i]) by {
        forall i | p <= i < p + 6 ensures IsDigit(name[i]) { assert name[i] == name[p..p + 6][i - p]; }
      }
      Some(Date(2000 + DigitsValue(name[p..p + 2]), DigitsValue(name[p + 2..p + 4]),
                DigitsValue(name[p + 4..p + 6])))
    else None
  }

  /** Reading the expiration back out of a symbol built for an underlying whose name
      has no digits gives the date the symbol was built for. */
  lemma SymbolExpirationParses(stock: string, friday: Date, t: OptionType, strike: int)
    requires 2000 <= friday.year <= 2099 && 0 <= friday.month < 100 && 0 <= friday.day < 100
    requires |stock| >= 1 && forall i :: 0 <= i < |stock| ==> !IsDigit(stock[i])
    ensures ParseExpiration(SymbolOf(stock, friday, t, strike)) == Some(friday)
  {
    var tail := [TypeLetter(t)] + StrikeField(strike);
    ParseShape(stock, friday, tail);
  }

  lemma ParseShape(stock: string, friday: Date, tail: string)
    requires 2000 <= friday.year <= 2099 && 0 <= friday.month < 100 && 0 <= friday.day < 100
    requires |stock| >= 1 && forall i :: 0 <= i < |stock| ==> !IsDigit(stock[i])
    ensures ParseExpiration(stock + (DateField(friday) + tail)) == Some(friday)
  {
    var date := DateField(friday);
    var name := stock + (date + tail);
    assert (date + tail)[0] == date[0];
    LeadingNonDigitsOfPrefix(stock, date + tail);
    assert name[|stock|..|stock| + 6] == date by {
      forall k | 0 <= k < 6 ensures name[|stock| + k] == date[k] { }
    }
    ParseAt(name, |stock|, date);
  }

  lemma SliceOfSlice(name: string, p: nat, date: string, a: nat, b: nat)
    requires p + 6 <= |name| && name[p..p + 6] == date && a <= b <= 6
    ensures name[p + a..p + b] == date[a..b]
  {
    forall k | 0 <= k < b - a ensures name[p + a..p + b][k] == date[a..b][k] {
      assert name[p + a + k] == name[p..p + 6][a + k];
    }
  }

  lemma ParseAt(name: string, p: nat, date: string)
    requires |LeadingNonDigits(name)| == p >= 1 && p + 6 <= |name| && name[p..p + 6] == date
    requires |date| == 6 && AllDigits(date)
    ensures ParseExpiration(name) == Some(Date(2000 + DigitsValue(date[..2]), DigitsValue(date[2..4]),
                                               DigitsValue(date[4..])))
  {
    SliceOfSlice(name, p, date, 0, 2);
    SliceOfSlice(name, p, date, 2, 4);
    SliceOfSlice(name, p, date, 4, 6);
    assert date[4..6] == date[4..];
  }

  /** The option symbol of a run names the expiration get_options_data chose. */
  lemma SymbolExpirationRoundTrip(stock: string, lastPrice: real, current: Date,
                                  strikesAbove: int, t: OptionType)
    requires ValidDate(current) && |stock| >= 1
    requires forall i :: 0 <= i < |stock| ==> !IsDigit(stock[i])
    requires OptionSymbol(stock, lastPrice, current, strikesAbove, t).Some?
    ensures ParseExpiration(OptionSymbol(stock, lastPrice, current, strikesAbove, t).value)
            == Some(TargetExpiration(current))
  {
    SymbolExpirationParses(stock, TargetExpiration(current), t, Strike(lastPrice, strikesAbove, t));
  }

  lemma {:induction false} LeadingNonDigitsOfPrefix(a: string, b: string)
    requires forall i :: 0 <= i < |a| ==> !IsDigit(a[i])
    requires |b| >= 1 && IsDigit(b[0])
    ensures LeadingNonDigits(a + b) == a
  {
    if a != [] {
      assert (a + b)[1..] == a[1..] + b;
      LeadingNonDigitsOfPrefix(a[1..], b);
    } else {
      assert a + b == b;
    }
  }
}
