/** The streaming trend strategy used by the backtests: two bounded price
    windows with running sums, a warm-up until the long window is full, a
    band-filtered entry (the short mean must exceed the long mean by a
    fraction `threshold`) and a plain cross-under exit, and a FLAT/LONG flag
    that the strategy flips on its own signal, whatever the ledger does with
    the order. */
module Strategies {
  import opened Common
  import opened Rolling

  datatype TrendConfig = TrendConfig(shortWindow: nat, longWindow: nat, threshold: real)

  /** A window of size 0 would make the source index an empty deque. */
  predicate ValidConfig(c: TrendConfig)
  {
    c.shortWindow > 0 && c.longWindow > 0
  }

  /** The strategy's fields as one value. */
  datatype TrendState = TrendState(
    shortDeque: seq<real>, shortSum: real,
    longDeque: seq<real>, longSum: real,
    position: Position)

  /** Each running sum equals its window's sum, and no window holds more than
      its size. */
  ghost predicate Consistent(c: TrendConfig, st: TrendState)
  {
    && |st.shortDeque| <= c.shortWindow && st.shortSum == Sum(st.shortDeque)
    && |st.longDeque| <= c.longWindow && st.longSum == Sum(st.longDeque)
  }

  function Initial(): TrendState
  {
    TrendState([], 0.0, [], 0.0, Flat)
  }

  /** The signal rule on the two means: enter when the short mean is above the
      long mean by more than the band, exit when it is below the long mean. */
  function Signal(shortAvg: real, longAvg: real, threshold: real, position: Position): (r: (Action, Position))
    ensures r.0 == Buy <==> position == Flat && shortAvg > longAvg * (1.0 + threshold)
    ensures r.0 == Sell <==> position == Long && !(shortAvg > longAvg * (1.0 + threshold)) && shortAvg < longAvg
    ensures r.1 == match r.0 case Buy => Long case Sell => Flat case Hold => position
  {
    if shortAvg > longAvg * (1.0 + threshold) then
      if position == Flat then (Buy, Long) else (Hold, position)
    else if shortAvg < longAvg then
      if position == Long then (Sell, Flat) else (Hold, position)
    else (Hold, position)
  }

  /** One call of `decide`: push the price into both windows, hold during the
      warm-up, otherwise apply the signal rule. */
  function DecideStep(c: TrendConfig, st: TrendState, price: real): (r: (TrendState, Action))
    requires ValidConfig(c) && |st.shortDeque| <= c.shortWindow && |st.longDeque| <= c.longWindow
    ensures r.0.shortDeque == Slide(st.shortDeque, c.shortWindow, price)
    ensures r.0.longDeque == Slide(st.longDeque, c.longWindow, price)
    ensures |r.0.longDeque| < c.longWindow ==> r.1 == Hold
    ensures r.1 == Buy ==> st.position == Flat && r.0.position == Long
    ensures r.1 == Sell ==> st.position == Long && r.0.position == Flat
    ensures r.1 == Hold ==> r.0.position == st.position
    ensures |r.0.longDeque| == c.longWindow ==>
      (r.1, r.0.position) == Signal(r.0.shortSum / c.shortWindow as real, r.0.longSum / c.longWindow as real, c.threshold, st.position)
  {
    var sd := Slide(st.shortDeque, c.shortWindow, price);
    var ss := PushSum(st.shortDeque, st.shortSum, c.shortWindow, price);
    var ld := Slide(st.longDeque, c.longWindow, price);
    var ls := PushSum(st.longDeque, st.longSum, c.longWindow, price);
    if |ld| < c.longWindow then
      (TrendState(sd, ss, ld, ls, st.position), Hold)
    else
      var (a, p) := Signal(ss / c.shortWindow as real, ls / c.longWindow as real, c.threshold, st.position);
      (TrendState(sd, ss, ld, ls, p), a)
  }

  lemma DecideConsistent(c: TrendConfig, st: TrendState, price: real)
    requires ValidConfig(c) && Consistent(c, st)
    ensures Consistent(c, DecideStep(c, st, price).0)
  {
    PushSumCorrect(st.shortDeque, st.shortSum, c.shortWindow, price);
    PushSumCorrect(st.longDeque, st.longSum, c.longWindow, price);
  }

  /** The short-window update alone keeps the windows consistent. */
  lemma PushShortConsistent(c: TrendConfig, st: TrendState, price: real)
    requires ValidConfig(c) && Consistent(c, st)
    ensures Consistent(c, st.(shortDeque := Slide(st.shortDeque, c.shortWindow, price),
                              shortSum := PushSum(st.shortDeque, st.shortSum, c.shortWindow, price)))
  {
    PushSumCorrect(st.shortDeque, st.shortSum, c.shortWindow, price);
  }

  /** The long-window update alone keeps the windows consistent. */
  lemma PushLongConsistent(c: TrendConfig, st: TrendState, price: real)
    requires ValidConfig(c) && Consistent(c, st)
    ensures Consistent(c, st.(longDeque := Slide(st.longDeque, c.longWindow, price),
                              longSum := PushSum(st.longDeque, st.longSum, c.longWindow, price)))
  {
    PushSumCorrect(st.longDeque, st.longSum, c.longWindow, price);
  }

  /** Entry needs the short mean strictly above the band: at the boundary
      itself the rule does not buy. */
  lemma BandBoundaryHolds(longAvg: real, threshold: real, position: Position)
    ensures Signal(longAvg * (1.0 + threshold), longAvg, threshold, position).0 != Buy
  {
  }

  /** The exit test does not depend on the band: for non-negative means and
      bands, two thresholds give the same decision for a LONG position. */
  lemma ExitIgnoresThreshold(shortAvg: real, longAvg: real, t1: real, t2: real)
    requires longAvg >= 0.0 && t1 >= 0.0 && t2 >= 0.0
    ensures Signal(shortAvg, longAvg, t1, Long) == Signal(shortAvg, longAvg, t2, Long)
    ensures Signal(shortAvg, longAvg, t1, Long).0 == Sell <==> shortAvg < longAvg
  {
    assert longAvg * (1.0 + t1) == longAvg + longAvg * t1;
    assert longAvg * (1.0 + t2) == longAvg + longAvg * t2;
  }

  /** Feeding a price series to `decide`, starting from state `st`: the final
      state and the action returned for each price. */
  function Run(c: TrendConfig, st: TrendState, prices: seq<real>): (r: (TrendState, seq<Action>))
    requires ValidConfig(c) && |st.shortDeque| <= c.shortWindow && |st.longDeque| <= c.longWindow
    ensures |r.0.shortDeque| <= c.shortWindow && |r.0.longDeque| <= c.longWindow
    ensures |r.1| == |prices|
  {
    if prices == [] then (st, [])
    else
      var (s, acts) := Run(c, st, prices[..|prices| - 1]);
      var (s', a) := DecideStep(c, s, prices[|prices| - 1]);
      (s', acts + [a])
  }

  lemma {:induction false} RunConsistent(c: TrendConfig, st: TrendState, prices: seq<real>)
    requires ValidConfig(c) && Consistent(c, st)
    ensures Consistent(c, Run(c, st, prices).0)
  {
    if prices != [] {
      RunConsistent(c, st, prices[..|prices| - 1]);
      DecideConsistent(c, Run(c, st, prices[..|prices| - 1]).0, prices[|prices| - 1]);
    }
  }

  /** From a fresh strategy, the windows hold exactly the last prices seen,
      and the running sums their sums. */
  lemma {:induction false} RunWindows(c: TrendConfig, prices: seq<real>)
    requires ValidConfig(c)
    ensures Run(c, Initial(), prices).0.shortDeque == SlideAll(prices, c.shortWindow)
    ensures Run(c, Initial(), prices).0.longDeque == SlideAll(prices, c.longWindow)
    ensures Run(c, Initial(), prices).0.longSum == Sum(LastN(prices, c.longWindow))
    ensures Run(c, Initial(), prices).0.shortSum == Sum(LastN(prices, c.shortWindow))
  {
    if prices != [] {
      RunWindows(c, prices[..|prices| - 1]);
    }
    RunConsistent(c, Initial(), prices);
    SlideAllIsLastN(prices, c.shortWindow);
    SlideAllIsLastN(prices, c.longWindow);
  }

  /** The action for each price only depends on the prices up to it. */
  lemma {:induction false} RunPrefix(c: TrendConfig, st: TrendState, prices: seq<real>, k: nat)
    requires ValidConfig(c) && |st.shortDeque| <= c.shortWindow && |st.longDeque| <= c.longWindow
    requires k <= |prices|
    ensures Run(c, st, prices).1[..k] == Run(c, st, prices[..k]).1
  {
    if k < |prices| {
      RunPrefix(c, st, prices[..|prices| - 1], k);
      assert prices[..|prices| - 1][..k] == prices[..k];
    } else {
      assert prices[..k] == prices;
    }
  }

  /** Warm-up: a fresh strategy returns no trade for every price before the
      long window has filled. */
  lemma WarmupHolds(c: TrendConfig, prices: seq<real>, i: nat)
    requires ValidConfig(c) && i < |prices| && i + 1 < c.longWindow
    ensures Run(c, Initial(), prices).1[i] == Hold
  {
    var pre := prices[..i + 1];
    RunPrefix(c, Initial(), prices, i + 1);
    assert pre[..|pre| - 1] == pre[..i];
    RunWindows(c, pre[..i]);
    SlideAllIsLastN(pre[..i], c.longWindow);
    var s := Run(c, Initial(), pre[..i]).0;
    assert |s.longDeque| == i;
    assert Run(c, Initial(), pre).1 == Run(c, Initial(), pre[..i]).1 + [DecideStep(c, s, pre[i]).1];
    assert Run(c, Initial(), prices).1[i] == Run(c, Initial(), pre).1[i];
  }

  /** From a fresh strategy, once the long window has filled, the action for
      the latest price and the new position are the signal rule applied to
      the mean of the last `shortWindow` prices (divided by the full window
      size) and the mean of the last `longWindow` prices. */
  lemma {:induction false} RunSignal(c: TrendConfig, prices: seq<real>)
    requires ValidConfig(c) && |prices| >= c.longWindow
    ensures var prev := Run(c, Initial(), prices[..|prices| - 1]).0;
      var r := Run(c, Initial(), prices);
      (r.1[|prices| - 1], r.0.position)
        == Signal(Sum(LastN(prices, c.shortWindow)) / c.shortWindow as real,
                  Sum(LastN(prices, c.longWindow)) / c.longWindow as real,
                  c.threshold, prev.position)
  {
    var prev := Run(c, Initial(), prices[..|prices| - 1]);
    var step := DecideStep(c, prev.0, prices[|prices| - 1]);
    assert Run(c, Initial(), prices) == (step.0, prev.1 + [step.1]);
    RunWindows(c, prices);
    WindowMean(prices, c.longWindow);
  }

  /** The strategy object: its fields are those of the source, updated in
      place by `Decide`. */
  class TrendStrategy {
    const shortWindow: nat
    const longWindow: nat
    const threshold: real
    var shortDeque: seq<real>
    var longDeque: seq<real>
    var shortSum: real
    var longSum: real
    var position: Position

    function Config(): TrendConfig
    {
      TrendConfig(shortWindow, longWindow, threshold)
    }

    function State(): TrendState
      reads this
    {
      TrendState(shortDeque, shortSum, longDeque, longSum, position)
    }

    ghost predicate Valid()
      reads this
    {
      ValidConfig(Config()) && Consistent(Config(), State())
    }

    constructor (shortWindow: nat := 10000, longWindow: nat := 50000, threshold: real := 0.0005)
      requires shortWindow > 0 && longWindow > 0
      ensures Valid()
      ensures Config() == TrendConfig(shortWindow, longWindow, threshold)
      ensures State() == Initial()
    {
      this.shortWindow := shortWindow;
      this.longWindow := longWindow;
      this.threshold := threshold;
      shortDeque := [];
      longDeque := [];
      shortSum := 0.0;
      longSum := 0.0;
      position := Flat;
    }

    /** Steps 1 and 2 of `decide`: the O(1) window updates. */
    method PushPrice(price: real)
      requires Valid()
      modifies this
      ensures Valid() && position == old(position)
      ensures shortDeque == Slide(old(shortDeque), shortWindow, price)
      ensures shortSum == PushSum(old(shortDeque), old(shortSum), shortWindow, price)
      ensures longDeque == Slide(old(longDeque), longWindow, price)
      ensures longSum == PushSum(old(longDeque), old(longSum), longWindow, price)
    {
      PushShort(price);
      PushLong(price);
    }

    method PushShort(price: real)
      requires Valid()
      modifies this
      ensures Valid()
      ensures State() == old(State()).(shortDeque := Slide(old(shortDeque), shortWindow, price),
                                       shortSum := PushSum(old(shortDeque), old(shortSum), shortWindow, price))
    {
      ghost var st0 := State();
      PushShortConsistent(Config(), st0, price);
      if |shortDeque| == shortWindow {
        shortSum := shortSum - shortDeque[0];
        shortDeque := shortDeque[1..];
      }
      shortDeque := shortDeque + [price];
      shortSum := shortSum + price;
      assert State() == st0.(shortDeque := Slide(st0.shortDeque, shortWindow, price),
                             shortSum := PushSum(st0.shortDeque, st0.shortSum, shortWindow, price));
    }

    method PushLong(price: real)
      requires Valid()
      modifies this
      ensures Valid()
      ensures State() == old(State()).(longDeque := Slide(old(longDeque), longWindow, price),
                                       longSum := PushSum(old(longDeque), old(longSum), longWindow, price))
    {
      ghost var st0 := State();
      PushLongConsistent(Config(), st0, price);
      if |longDeque| == longWindow {
        longSum := longSum - longDeque[0];
        longDeque := longDeque[1..];
      }
      longDeque := longDeque + [price];
      longSum := longSum + price;
      assert State() == st0.(longDeque := Slide(st0.longDeque, longWindow, price),
                             longSum := PushSum(st0.longDeque, st0.longSum, longWindow, price));
    }

    /** `decide(row, inventory, cash)`: inventory and cash are accepted and
        ignored, so the action depends on the price and the state only. */
    method Decide(price: real, inventory: real, cash: real) returns (action: Action)
      requires Valid()
      modifies this
      ensures Valid()
      ensures (State(), action) == DecideStep(Config(), old(State()), price)
    {
      ghost var st0 := State();
      PushPrice(price);
      assert shortSum == PushSum(st0.shortDeque, st0.shortSum, shortWindow, price);
      assert longSum == PushSum(st0.longDeque, st0.longSum, longWindow, price);

      // Warm-up
      if |longDeque| < longWindow {
        return Hold;
      }

      var shortAvg := shortSum / shortWindow as real;
      var longAvg := longSum / longWindow as real;

      ghost var signal := Signal(shortAvg, longAvg, threshold, position);
      assert DecideStep(Config(), st0, price) == (State().(position := signal.1), signal.0);

      action := Hold;
      if shortAvg > longAvg * (1.0 + threshold) {
        if position == Flat {
          position := Long;
          action := Buy;
        }
      } else if shortAvg < longAvg {
        if position == Long {
          position := Flat;
          action := Sell;
        }
      }
    }
  }
}
