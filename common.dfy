/** Shared result types. A run of the backtester either goes on or stops: every
    uncaught Python exception and every `Helper.log_error` (which calls `sys.exit`)
    becomes a `Fail` carrying the reason the run stopped. */
module Common {

  datatype Option<+T> = None | Some(value: T)

  /** Why a run stopped. */
  datatype Failure =
    | NotHeld(name: string)            // subtract_holdings on a name not in the ledger
    | MissingSeries(name: string)      // `_strategies[name]` raised KeyError
    | PriceUnavailable                 // a price lookup raised (KeyError/IndexError) or returned None
    | DivisionByZero                   // a float division by zero
    | InvalidAllocationType            // buying allocation type is neither percent_portfolio nor percent_bp
    | InvalidAssetType                 // asset class the sizing/selling code has no branch for
    | BadExpiration(name: string)      // an option name whose expiration the regex cannot read
    | WindowTooShort                   // the `assert False` of add_datapoint
    | NotEnoughRows                    // warm-up ran off the start of the series (IndexError)
    | InvalidDates                     // check_backtest_preconditions rejected the dates
    | UnimplementedResolution          // Resolution.forward_time / time_init on Hourly
    | NotInSellSet(name: string)       // set.remove of a holding that is not in the set
    | MissingArgument(parameter: string) // TypeError: a call left a parameter without an argument
    | ExtraArgument                    // TypeError: a call passed more arguments than parameters

  datatype Result<+T> = Ok(value: T) | Fail(failure: Failure)

  /** The position of the first element whose key is `k`, as `list.index` and a
      frame's `.loc` find it, or None when no element has that key. */
  function FirstWith<T, K(==)>(s: seq<T>, key: T -> K, k: K): (r: Option<nat>)
    ensures r.Some? ==> r.value < |s| && key(s[r.value]) == k
    ensures r.Some? ==> forall i :: 0 <= i < r.value ==> key(s[i]) != k
    ensures r.None? ==> forall i :: 0 <= i < |s| ==> key(s[i]) != k
  {
    if s == [] then None
    else if key(s[0]) == k then Some(0)
    else match FirstWith(s[1..], key, k)
      case None => None
      case Some(i) => Some(i + 1)
  }

  /** The positions of the elements that satisfy `p`, in increasing order: every
      such position once, and no other. */
  function IndicesWhere<T>(s: seq<T>, p: T -> bool): (r: seq<nat>)
    ensures forall k :: 0 <= k < |r| ==> r[k] < |s| && p(s[r[k]])
    ensures forall k :: 0 <= k < |s| && p(s[k]) ==> k in r
    ensures forall a, b :: 0 <= a < b < |r| ==> r[a] < r[b]
  {
    if s == [] then []
    else
      var init := s[..|s| - 1];
      var rest := IndicesWhere(init, p);
      assert forall k :: 0 <= k < |init| ==> init[k] == s[k];
      if p(s[|s| - 1]) then rest + [|s| - 1] else rest
  }

  /** Splitting a test into two exclusive cases splits the count of the positions
      that pass it. */
  lemma {:induction false} IndicesSplit<T>(s: seq<T>, p: T -> bool, q: T -> bool, either: T -> bool)
    requires forall x :: either(x) == (p(x) || q(x))
    requires forall x :: !(p(x) && q(x))
    ensures |IndicesWhere(s, p)| + |IndicesWhere(s, q)| == |IndicesWhere(s, either)|
    decreases |s|
  {
    if s != [] {
      IndicesSplit(s[..|s| - 1], p, q, either);
    }
  }
}
