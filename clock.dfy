/** `Resolution` and `Time`: the simulated clock of a backtest. A day has 2 ticks
    (Open, Close) at Daily resolution and 24 at Hourly; the clock's index wraps modulo
    the resolution and the last label of the day is end-of-day. */
module Clock {
  import opened Common

  datatype Resolution = Daily | Hourly

  /** The enum's integer value, used as the number of ticks per day. */
  function Ticks(r: Resolution): (n: nat)
    ensures n == |Labels(r)|
  {
    if r == Daily then 2 else 24
  }

  /** `Time.resolution_dict`. */
  function Labels(r: Resolution): seq<string>
  {
    if r == Daily then ["Open", "Close"]
    else ["12-AM", "01-AM", "02-AM", "03-AM", "04-AM", "05-AM", "06-AM", "07-AM", "08-AM",
          "09-AM", "10-AM", "11-AM", "12-PM", "01-PM", "02-PM", "03-PM", "04-PM", "05-PM",
          "06-PM", "07-PM", "08-PM", "09-PM", "10-PM", "11-PM"]
  }

  /** `Resolution.time_init`: only Daily is implemented (Hourly hits `assert False`). */
  function TimeInit(r: Resolution): (t: Result<string>)
    ensures t.Ok? <==> r == Daily
    ensures t.Ok? ==> t.value == Labels(r)[0]
  {
    if r == Daily then Ok("Open") else Fail(UnimplementedResolution)
  }

  /** `Resolution.forward_time`: at Daily resolution Open is followed by Close and
      anything else by Open; Hourly is reported as unimplemented. */
  function ResolutionForward(time: string, r: Resolution): (t: Result<string>)
    ensures t.Ok? <==> r == Daily
    ensures t.Ok? ==> t.value in Labels(Daily) && t.value != time
  {
    if r == Daily then Ok(if time == "Open" then "Close" else "Open")
    else Fail(UnimplementedResolution)
  }

  class Time {
    const labels: seq<string>
    var index: nat

    ghost predicate Valid()
      reads this
    {
      index < |labels|
    }

    constructor (r: Resolution)
      ensures labels == Labels(r) && index == 0 && Valid()
    {
      labels := Labels(r);
      index := 0;
    }

    /** `str(time)`: the current tick's label. */
    function Label(): string
      reads this
      requires Valid()
    {
      labels[index]
    }

    /** `forward_time(resolution)`: the index advances by one modulo the
        resolution passed in (the driver passes the clock's own resolution). */
    method ForwardTime(r: Resolution)
      requires Valid() && Ticks(r) <= |labels|
      modifies this
      ensures Valid()
      ensures index == (old(index) + 1) % Ticks(r)
    {
      index := (index + 1) % Ticks(r);
    }

    /** `is_eod`: the current tick is the day's last label. */
    function IsEod(): (b: bool)
      reads this
      requires Valid()
      ensures b <==> Label() == labels[|labels| - 1] && index + 1 == |labels|
    {
      index == |labels| - 1
    }
  }

  /** After `n` ticks from the start of a day the clock shows tick `n mod Ticks`:
      stepping once more from there agrees with the source's `+= 1; %=`. */
  lemma {:induction false} TickAfterSteps(r: Resolution, n: nat)
    ensures (n % Ticks(r) + 1) % Ticks(r) == (n + 1) % Ticks(r)
  {
    if r == Daily {
      assert n == 2 * (n / 2) + n % 2;
    } else {
      assert n == 24 * (n / 24) + n % 24;
    }
  }
}
