/** The live trend trader: one pass of its polling loop over the shared
    record.  A pass ignores stale data (older than 5000 ms) and repeated
    timestamps, pushes the mid price into both windows, waits for the long
    window to fill, runs the trailing stop while LONG, and otherwise applies
    the band-filtered entry and the cross-under exit, gated by the account's
    cash and inventory.  Every order is written into the command block with
    the command id bumped by one.  The wall clock and the snapshot are
    parameters of a pass; sleeping and printing are not modelled. */
module LiveTrend {
  import opened Common
  import opened Rolling
  import opened Schema

  const SHORT_WINDOW: nat := 5000
  const LONG_WINDOW: nat := 30000
  const THRESHOLD: real := 0.002
  const TRADE_SIZE: real := 0.001
  const MAX_INVENTORY: real := 0.005
  const MIN_CASH: real := 15.0
  const TRAILING_STOP: real := 50.0
  const STALE_MS: real := 5000.0

  /** The loop's local variables, plus the command block it writes. */
  datatype LiveState = LiveState(
    shortDeque: seq<real>, shortSum: real,
    longDeque: seq<real>, longSum: real,
    position: Position,
    highest: real,
    lastTime: U64,
    command: StrategyCommand<real>)

  /** What one pass did. */
  datatype Outcome = Stale | SameTick | WarmingUp | StopHit | Bought | Sold | NoTrade {
    predicate Writes()
    {
      StopHit? || Bought? || Sold?
    }
  }

  ghost predicate Inv(st: LiveState)
  {
    && |st.shortDeque| <= SHORT_WINDOW && st.shortSum == Sum(st.shortDeque)
    && |st.longDeque| <= LONG_WINDOW && st.longSum == Sum(st.longDeque)
    && (st.position == Flat ==> st.highest == 0.0)
  }

  /** The command block after `action`, `quantity` and `price` are written and
      `command_id` is bumped. */
  function Order(prev: StrategyCommand<real>, action: Action, price: real): (c: StrategyCommand<real>)
    ensures c.commandId == NextId(prev.commandId) && c.action == action.Code()
    ensures c.quantity == TRADE_SIZE && c.price == price
  {
    StrategyCommand(NextId(prev.commandId), action.Code(), TRADE_SIZE, price)
  }

  /** Startup ("resume"): with inventory of at least one trade already held,
      start LONG with the stop based at the current bid; otherwise FLAT. */
  function Resume(m: MarketState<real>, command: StrategyCommand<real>): (st: LiveState)
    ensures Inv(st) && st.command == command && st.lastTime == 0
    ensures st.shortDeque == [] && st.longDeque == []
    ensures st.position == Long <==> m.realBtcBalance >= TRADE_SIZE
    ensures st.highest == if m.realBtcBalance >= TRADE_SIZE then m.bidPrice else 0.0
  {
    if m.realBtcBalance >= TRADE_SIZE then
      LiveState([], 0.0, [], 0.0, Long, m.bidPrice, 0, command)
    else
      LiveState([], 0.0, [], 0.0, Flat, 0.0, 0, command)
  }

  function Mid(m: MarketState<real>): real
  {
    (m.bidPrice + m.askPrice) / 2.0
  }

  /** The state after the windows have taken the mid price. */
  function Pushed(st: LiveState, price: real): (r: LiveState)
    requires |st.shortDeque| <= SHORT_WINDOW && |st.longDeque| <= LONG_WINDOW
  {
    st.(shortDeque := Slide(st.shortDeque, SHORT_WINDOW, price),
        shortSum := PushSum(st.shortDeque, st.shortSum, SHORT_WINDOW, price),
        longDeque := Slide(st.longDeque, LONG_WINDOW, price),
        longSum := PushSum(st.longDeque, st.longSum, LONG_WINDOW, price))
  }

  /** The short-window update alone keeps the invariant. */
  lemma PushShortKeepsInv(st: LiveState, price: real)
    requires Inv(st)
    ensures Inv(st.(shortDeque := Slide(st.shortDeque, SHORT_WINDOW, price),
                    shortSum := PushSum(st.shortDeque, st.shortSum, SHORT_WINDOW, price)))
  {
    PushSumCorrect(st.shortDeque, st.shortSum, SHORT_WINDOW, price);
  }

  /** The long-window update alone keeps the invariant. */
  lemma PushLongKeepsInv(st: LiveState, price: real)
    requires Inv(st)
    ensures Inv(st.(longDeque := Slide(st.longDeque, LONG_WINDOW, price),
                    longSum := PushSum(st.longDeque, st.longSum, LONG_WINDOW, price)))
  {
    PushSumCorrect(st.longDeque, st.longSum, LONG_WINDOW, price);
  }

  /** The peak price since entry, after seeing `price`. */
  function Peak(st: LiveState, price: real): real
  {
    if st.position == Long && price > st.highest then price else st.highest
  }

  /** One pass of the main loop. */
  function LiveStep(st: LiveState, m: MarketState<real>, now: real): (r: (LiveState, Outcome))
    requires |st.shortDeque| <= SHORT_WINDOW && |st.longDeque| <= LONG_WINDOW
    ensures |r.0.shortDeque| <= SHORT_WINDOW && |r.0.longDeque| <= LONG_WINDOW
  {
    if now - m.localTimeMs as real > STALE_MS then (st, Stale)
    else if m.localTimeMs == st.lastTime then (st, SameTick)
    else
      var st1 := Pushed(st, Mid(m));
      if |st1.longDeque| < LONG_WINDOW then
        (st1.(lastTime := m.localTimeMs), WarmingUp)
      else
        Trade(st1, m)
  }

  /** Steps E to 8 of a pass, once the long window is full, from the state
      `st` after the window updates. */
  function Trade(st: LiveState, m: MarketState<real>): (r: (LiveState, Outcome))
  {
    var bid, ask := m.bidPrice, m.askPrice;
    var price := Mid(m);
    var shortAvg := st.shortSum / SHORT_WINDOW as real;
    var longAvg := st.longSum / LONG_WINDOW as real;
    var highest := Peak(st, price);
    if st.position == Long && highest - price > TRAILING_STOP then
      (st.(position := Flat, highest := 0.0, command := Order(st.command, Sell, ask - 10.0)), StopHit)
    else
      var st2 := st.(highest := highest, lastTime := m.localTimeMs);
      if shortAvg > longAvg * (1.0 + THRESHOLD) then
        if st.position == Flat && m.realUsdtBalance > MIN_CASH && m.realBtcBalance < MAX_INVENTORY then
          (st2.(position := Long, highest := price, command := Order(st.command, Buy, bid + 0.01)), Bought)
        else (st2, NoTrade)
      else if shortAvg < longAvg then
        if st.position == Long && m.realBtcBalance >= TRADE_SIZE then
          (st2.(position := Flat, highest := 0.0, command := Order(st.command, Sell, ask - 0.01)), Sold)
        else (st2, NoTrade)
      else (st2, NoTrade)
  }

  /** The guards: data more than 5000 ms old, or a timestamp already
      handled, leave the whole state alone. */
  lemma GuardRule(st: LiveState, m: MarketState<real>, now: real)
    requires |st.shortDeque| <= SHORT_WINDOW && |st.longDeque| <= LONG_WINDOW
    ensures var r := LiveStep(st, m, now);
      && (r.1 == Stale <==> now - m.localTimeMs as real > STALE_MS)
      && (r.1 == SameTick <==> now - m.localTimeMs as real <= STALE_MS && m.localTimeMs == st.lastTime)
      && (r.1 == Stale || r.1 == SameTick ==> r.0 == st)
  {
  }

  /** At most one order per pass: the command block changes exactly when an
      order is written, and then the id is bumped once and the quantity is
      one trade size.  Every pass past the guards records its timestamp,
      except the one that hits the trailing stop. */
  lemma OneOrderPerPass(st: LiveState, m: MarketState<real>, now: real)
    requires |st.shortDeque| <= SHORT_WINDOW && |st.longDeque| <= LONG_WINDOW
    ensures var r := LiveStep(st, m, now);
      && (r.1.Writes() <==> r.0.command.commandId != st.command.commandId)
      && (r.1.Writes() ==> r.0.command.commandId == NextId(st.command.commandId) && r.0.command.quantity == TRADE_SIZE)
      && (!r.1.Writes() ==> r.0.command == st.command)
      && (r.1 == StopHit ==> r.0.lastTime == st.lastTime)
      && (r.1 != Stale && r.1 != SameTick && r.1 != StopHit ==> r.0.lastTime == m.localTimeMs)
  {
  }

  // ---------------------------------------------------------------------
  // What a pass does, stated in terms of the true window means
  // ---------------------------------------------------------------------

  /** The pass gets past the stale guard, the same-tick skip and the warm-up:
      fresh data, a new timestamp, and the long window full once the mid
      price is pushed. */
  ghost predicate Acts(st: LiveState, m: MarketState<real>, now: real)
  {
    now - m.localTimeMs as real <= STALE_MS && m.localTimeMs != st.lastTime && |st.longDeque| + 1 >= LONG_WINDOW
  }

  ghost function ShortMean(st: LiveState, m: MarketState<real>): real
    requires |st.shortDeque| <= SHORT_WINDOW
  {
    Sum(Slide(st.shortDeque, SHORT_WINDOW, Mid(m))) / SHORT_WINDOW as real
  }

  ghost function LongMean(st: LiveState, m: MarketState<real>): real
    requires |st.longDeque| <= LONG_WINDOW
  {
    Sum(Slide(st.longDeque, LONG_WINDOW, Mid(m))) / LONG_WINDOW as real
  }

  /** Past the guards, the pass trades on the true means of the windows. */
  lemma PassMeans(st: LiveState, m: MarketState<real>, now: real)
    requires Inv(st) && Acts(st, m, now)
    ensures var st1 := Pushed(st, Mid(m));
      && LiveStep(st, m, now) == Trade(st1, m)
      && st1.shortSum / SHORT_WINDOW as real == ShortMean(st, m)
      && st1.longSum / LONG_WINDOW as real == LongMean(st, m)
  {
    PushSumCorrect(st.shortDeque, st.shortSum, SHORT_WINDOW, Mid(m));
    PushSumCorrect(st.longDeque, st.longSum, LONG_WINDOW, Mid(m));
  }

  /** The trailing stop fires exactly when, past the guards, the trader is
      LONG and the mid price is more than 50 below the highest price seen
      (the peak includes this tick).  It posts SELL 0.001 at ask - 10, goes
      FLAT, and leaves `last_time` as it was. */
  lemma StopRule(st: LiveState, m: MarketState<real>, now: real)
    requires Inv(st)
    ensures var r := LiveStep(st, m, now);
      && (r.1 == StopHit <==> Acts(st, m, now) && st.position == Long && Peak(st, Mid(m)) - Mid(m) > TRAILING_STOP)
      && (r.1 == StopHit ==>
            r.0.command == Order(st.command, Sell, m.askPrice - 10.0)
            && r.0.position == Flat && r.0.highest == 0.0 && r.0.lastTime == st.lastTime)
  {
  }

  /** The stop consults neither balance: it would fire whatever the account
      held, so it can post a SELL with no inventory behind it. */
  lemma StopIgnoresBalances(st: LiveState, m: MarketState<real>, now: real, usd: real, btc: real)
    requires Inv(st)
    ensures LiveStep(st, m, now).1 == StopHit <==>
            LiveStep(st, m.(realUsdtBalance := usd, realBtcBalance := btc), now).1 == StopHit
  {
    StopRule(st, m, now);
    StopRule(st, m.(realUsdtBalance := usd, realBtcBalance := btc), now);
  }

  /** A BUY is posted exactly when, past the guards, the short mean exceeds
      the long mean by more than the band, the trader is FLAT, and the
      account has more than 15 USDT and less than 0.005 BTC.  It is a limit
      order at bid + 0.01, and the stop is based at the mid price. */
  lemma {:induction false} BuyRule(st: LiveState, m: MarketState<real>, now: real)
    requires Inv(st)
    ensures var r := LiveStep(st, m, now);
      && (r.1 == Bought <==>
            Acts(st, m, now) && ShortMean(st, m) > LongMean(st, m) * (1.0 + THRESHOLD)
            && st.position == Flat && m.realUsdtBalance > MIN_CASH && m.realBtcBalance < MAX_INVENTORY)
      && (r.1 == Bought ==>
            r.0.command == Order(st.command, Buy, m.bidPrice + 0.01)
            && r.0.position == Long && r.0.highest == Mid(m))
  {
    if Acts(st, m, now) {
      PassMeans(st, m, now);
    }
  }

  /** A SELL on the signal is posted exactly when, past the guards and the
      stop, the band condition fails, the short mean is below the long mean,
      the trader is LONG and the account holds at least one trade size.  It
      is a limit order at ask - 0.01. */
  lemma {:induction false} SellRule(st: LiveState, m: MarketState<real>, now: real)
    requires Inv(st)
    ensures var r := LiveStep(st, m, now);
      && (r.1 == Sold <==>
            Acts(st, m, now) && !(Peak(st, Mid(m)) - Mid(m) > TRAILING_STOP)
            && !(ShortMean(st, m) > LongMean(st, m) * (1.0 + THRESHOLD)) && ShortMean(st, m) < LongMean(st, m)
            && st.position == Long && m.realBtcBalance >= TRADE_SIZE)
      && (r.1 == Sold ==>
            r.0.command == Order(st.command, Sell, m.askPrice - 0.01)
            && r.0.position == Flat && r.0.highest == 0.0)
  {
    if Acts(st, m, now) {
      PassMeans(st, m, now);
    }
  }

  /** The trading part of a pass keeps the invariant; a trader that stays
      LONG keeps or raises its peak, and one that ends LONG is within the
      trailing-stop distance below it. */
  lemma TradeKeepsInv(st: LiveState, m: MarketState<real>)
    requires Inv(st)
    ensures var r := Trade(st, m);
      && Inv(r.0)
      && (st.position == Long && r.0.position == Long ==> r.0.highest >= st.highest)
      && (r.0.position == Long ==> Mid(m) <= r.0.highest <= Mid(m) + TRAILING_STOP)
  {
  }

  /** Every pass keeps the running sums equal to the window sums and the
      stop base at 0 while FLAT.  While the trader stays LONG the peak never
      falls, and after a pass that trades and ends LONG the mid price is
      within the trailing-stop distance of the peak. */
  lemma StepKeepsInv(st: LiveState, m: MarketState<real>, now: real)
    requires Inv(st)
    ensures var r := LiveStep(st, m, now);
      && Inv(r.0)
      && (st.position == Long && r.0.position == Long ==> r.0.highest >= st.highest)
      && (Acts(st, m, now) && r.0.position == Long ==> Mid(m) <= r.0.highest <= Mid(m) + TRAILING_STOP)
  {
    if now - m.localTimeMs as real <= STALE_MS && m.localTimeMs != st.lastTime {
      var st1 := Pushed(st, Mid(m));
      PushSumCorrect(st.shortDeque, st.shortSum, SHORT_WINDOW, Mid(m));
      PushSumCorrect(st.longDeque, st.longSum, LONG_WINDOW, Mid(m));
      assert Inv(st1);
      if |st1.longDeque| >= LONG_WINDOW {
        TradeKeepsInv(st1, m);
      }
    }
  }

  // ---------------------------------------------------------------------
  // Many passes
  // ---------------------------------------------------------------------

  /** Several passes in order, each with its snapshot and wall-clock time;
      the second component counts the orders written. */
  function LiveRun(st: LiveState, ticks: seq<(MarketState<real>, real)>): (r: (LiveState, nat))
    requires |st.shortDeque| <= SHORT_WINDOW && |st.longDeque| <= LONG_WINDOW
    ensures |r.0.shortDeque| <= SHORT_WINDOW && |r.0.longDeque| <= LONG_WINDOW
    ensures r.1 <= |ticks|
  {
    if ticks == [] then (st, 0)
    else
      var prev := LiveRun(st, ticks[..|ticks| - 1]);
      var step := LiveStep(prev.0, ticks[|ticks| - 1].0, ticks[|ticks| - 1].1);
      (step.0, prev.1 + if step.1.Writes() then 1 else 0)
  }

  /** A pass bumps the id exactly when it writes an order. */
  lemma PassId(st: LiveState, m: MarketState<real>, now: real)
    requires |st.shortDeque| <= SHORT_WINDOW && |st.longDeque| <= LONG_WINDOW
    ensures var r := LiveStep(st, m, now);
      r.0.command.commandId == if r.1.Writes() then NextId(st.command.commandId) else st.command.commandId
  {
    OneOrderPerPass(st, m, now);
  }

  /** One bump after `k` bumps is `k + 1` bumps. */
  lemma BumpedNext(id: U64, k: nat)
    ensures Bumped(id, k + 1) == NextId(Bumped(id, k))
  {
  }

  /** The last pass of a run keeps the id at `Bumped(id0, count)`. */
  lemma RunBumps(st: LiveState, ticks: seq<(MarketState<real>, real)>, id0: U64)
    requires |st.shortDeque| <= SHORT_WINDOW && |st.longDeque| <= LONG_WINDOW && ticks != []
    requires var prev := LiveRun(st, ticks[..|ticks| - 1]);
      prev.0.command.commandId == Bumped(id0, prev.1)
    ensures LiveRun(st, ticks).0.command.commandId == Bumped(id0, LiveRun(st, ticks).1)
  {
    var prev := LiveRun(st, ticks[..|ticks| - 1]);
    var m, now := ticks[|ticks| - 1].0, ticks[|ticks| - 1].1;
    PassId(prev.0, m, now);
    if LiveStep(prev.0, m, now).1.Writes() {
      BumpedNext(id0, prev.1);
    }
  }

  /** The command id the engine watches has been bumped exactly once per
      order written: no order is published twice and none without a bump. */
  lemma {:induction false} CommandIdsBumped(st: LiveState, ticks: seq<(MarketState<real>, real)>)
    requires |st.shortDeque| <= SHORT_WINDOW && |st.longDeque| <= LONG_WINDOW
    ensures LiveRun(st, ticks).0.command.commandId == Bumped(st.command.commandId, LiveRun(st, ticks).1)
  {
    if ticks != [] {
      CommandIdsBumped(st, ticks[..|ticks| - 1]);
      RunBumps(st, ticks, st.command.commandId);
    }
  }

  /** Hence the id has advanced by the number of orders, modulo 2^64. */
  lemma CommandIdsCount(st: LiveState, ticks: seq<(MarketState<real>, real)>)
    requires |st.shortDeque| <= SHORT_WINDOW && |st.longDeque| <= LONG_WINDOW
    ensures LiveRun(st, ticks).0.command.commandId == (st.command.commandId + LiveRun(st, ticks).1) % TWO64
  {
    CommandIdsBumped(st, ticks);
    BumpedIsSum(st.command.commandId, LiveRun(st, ticks).1);
  }

  // ---------------------------------------------------------------------
  // The windows over a run from startup
  // ---------------------------------------------------------------------

  /** The guards stop the pass before the windows take the mid price. */
  predicate Skipped(st: LiveState, m: MarketState<real>, now: real)
  {
    now - m.localTimeMs as real > STALE_MS || m.localTimeMs == st.lastTime
  }

  /** The mid prices the passes of a run pushed into the windows, in order:
      one per pass that got past the guards. */
  function PushedMids(st: LiveState, ticks: seq<(MarketState<real>, real)>): (r: seq<real>)
    requires |st.shortDeque| <= SHORT_WINDOW && |st.longDeque| <= LONG_WINDOW
    ensures |r| <= |ticks|
  {
    if ticks == [] then []
    else
      var prev := LiveRun(st, ticks[..|ticks| - 1]).0;
      var m, now := ticks[|ticks| - 1].0, ticks[|ticks| - 1].1;
      PushedMids(st, ticks[..|ticks| - 1]) + if Skipped(prev, m, now) then [] else [Mid(m)]
  }

  /** A skipped pass changes nothing; any other pass leaves the windows as
      the push made them, whatever it trades. */
  lemma StepWindows(st: LiveState, m: MarketState<real>, now: real)
    requires |st.shortDeque| <= SHORT_WINDOW && |st.longDeque| <= LONG_WINDOW
    ensures var r := LiveStep(st, m, now).0;
      if Skipped(st, m, now) then r == st
      else r.shortDeque == Pushed(st, Mid(m)).shortDeque && r.longDeque == Pushed(st, Mid(m)).longDeque
  {
  }

  /** One more pass keeps the invariant and the windows equal to the pushed
      mid prices slid through them. */
  lemma RunWindowsStep(st: LiveState, ticks: seq<(MarketState<real>, real)>)
    requires |st.shortDeque| <= SHORT_WINDOW && |st.longDeque| <= LONG_WINDOW && ticks != []
    requires var prev := LiveRun(st, ticks[..|ticks| - 1]).0;
      var mids := PushedMids(st, ticks[..|ticks| - 1]);
      Inv(prev) && prev.shortDeque == SlideAll(mids, SHORT_WINDOW) && prev.longDeque == SlideAll(mids, LONG_WINDOW)
    ensures var r := LiveRun(st, ticks).0;
      var mids := PushedMids(st, ticks);
      Inv(r) && r.shortDeque == SlideAll(mids, SHORT_WINDOW) && r.longDeque == SlideAll(mids, LONG_WINDOW)
  {
    var pre := ticks[..|ticks| - 1];
    var prev := LiveRun(st, pre).0;
    var m, now := ticks[|ticks| - 1].0, ticks[|ticks| - 1].1;
    var mids := PushedMids(st, ticks);
    var pm := PushedMids(st, pre);
    assert LiveRun(st, ticks).0 == LiveStep(prev, m, now).0;
    StepKeepsInv(prev, m, now);
    StepWindows(prev, m, now);
    if Skipped(prev, m, now) {
      assert mids == pm;
    } else {
      assert mids == pm + [Mid(m)];
      assert mids[..|mids| - 1] == pm;
      assert SlideAll(mids, SHORT_WINDOW) == Slide(SlideAll(pm, SHORT_WINDOW), SHORT_WINDOW, Mid(m));
      assert SlideAll(mids, LONG_WINDOW) == Slide(SlideAll(pm, LONG_WINDOW), LONG_WINDOW, Mid(m));
    }
  }

  /** From startup, the windows hold exactly the last 5000 and the last 30000
      mid prices pushed, oldest first, and the running sums are their sums. */
  lemma {:induction false} ResumeWindows(m0: MarketState<real>, cmd: StrategyCommand<real>, ticks: seq<(MarketState<real>, real)>)
    ensures var st := Resume(m0, cmd);
      var r := LiveRun(st, ticks).0;
      var mids := PushedMids(st, ticks);
      && Inv(r)
      && r.shortDeque == SlideAll(mids, SHORT_WINDOW) == LastN(mids, SHORT_WINDOW)
      && r.longDeque == SlideAll(mids, LONG_WINDOW) == LastN(mids, LONG_WINDOW)
  {
    var st := Resume(m0, cmd);
    if ticks != [] {
      ResumeWindows(m0, cmd, ticks[..|ticks| - 1]);
      RunWindowsStep(st, ticks);
    }
    SlideAllIsLastN(PushedMids(st, ticks), SHORT_WINDOW);
    SlideAllIsLastN(PushedMids(st, ticks), LONG_WINDOW);
  }

  /** From startup, a pass that gets past the guards and the warm-up finds
      both windows full and trades on the running sums of the last 5000 and
      the last 30000 mid prices pushed, this pass's included: the short and
      long moving averages of the mid price. */
  lemma ResumeMeans(m0: MarketState<real>, cmd: StrategyCommand<real>, ticks: seq<(MarketState<real>, real)>)
    requires ticks != []
    ensures var st := Resume(m0, cmd);
      var prev := LiveRun(st, ticks[..|ticks| - 1]).0;
      var m, now := ticks[|ticks| - 1].0, ticks[|ticks| - 1].1;
      var mids := PushedMids(st, ticks);
      var st1 := Pushed(prev, Mid(m));
      Acts(prev, m, now) ==>
        && LiveStep(prev, m, now) == Trade(st1, m)
        && |st1.shortDeque| == SHORT_WINDOW && |st1.longDeque| == LONG_WINDOW
        && |mids| >= LONG_WINDOW
        && st1.shortSum == Sum(mids[|mids| - SHORT_WINDOW..])
        && st1.longSum == Sum(mids[|mids| - LONG_WINDOW..])
  {
    var st := Resume(m0, cmd);
    var pre := ticks[..|ticks| - 1];
    var prev := LiveRun(st, pre).0;
    var m, now := ticks[|ticks| - 1].0, ticks[|ticks| - 1].1;
    var mids := PushedMids(st, ticks);
    if Acts(prev, m, now) {
      ResumeWindows(m0, cmd, pre);
      PassMeans(prev, m, now);
      assert mids == PushedMids(st, pre) + [Mid(m)];
      assert mids[..|mids| - 1] == PushedMids(st, pre);
      var st1 := Pushed(prev, Mid(m));
      assert st1.shortDeque == SlideAll(mids, SHORT_WINDOW);
      assert st1.longDeque == SlideAll(mids, LONG_WINDOW);
      SlideAllIsLastN(mids, SHORT_WINDOW);
      SlideAllIsLastN(mids, LONG_WINDOW);
      PushSumCorrect(prev.shortDeque, prev.shortSum, SHORT_WINDOW, Mid(m));
      PushSumCorrect(prev.longDeque, prev.longSum, LONG_WINDOW, Mid(m));
    }
  }

  /** The trader's loop state, bound to the shared segment it polls. */
  class LiveTrader {
    const shm: SharedMemory
    var shortDeque: seq<real>
    var shortSum: real
    var longDeque: seq<real>
    var longSum: real
    var position: Position
    var highest: real
    var lastTime: U64

    ghost function State(): LiveState
      reads this, shm
    {
      LiveState(shortDeque, shortSum, longDeque, longSum, position, highest, lastTime, shm.command)
    }

    ghost predicate Valid()
      reads this, shm
    {
      Inv(State())
    }

    /** Startup sync, once the first tick (a non-zero bid) has arrived. */
    constructor (shm: SharedMemory)
      requires shm.market.bidPrice != 0.0
      ensures this.shm == shm && Valid()
      ensures State() == Resume(shm.market, shm.command)
    {
      this.shm := shm;
      shortDeque := [];
      longDeque := [];
      shortSum := 0.0;
      longSum := 0.0;
      position := Flat;
      highest := 0.0;
      lastTime := 0;
      var realBtc := shm.market.realBtcBalance;
      if realBtc >= TRADE_SIZE {
        position := Long;
        highest := shm.market.bidPrice;
      }
    }

    /** Step D: the O(1) window updates, short window then long window. */
    method PushPrice(price: real)
      requires Valid()
      modifies this
      ensures Valid()
      ensures State() == Pushed(old(State()), price)
    {
      PushShort(price);
      PushLong(price);
    }

    method PushShort(price: real)
      requires Valid()
      modifies this
      ensures Valid()
      ensures State() == old(State()).(shortDeque := Slide(old(shortDeque), SHORT_WINDOW, price),
                                       shortSum := PushSum(old(shortDeque), old(shortSum), SHORT_WINDOW, price))
    {
      ghost var st0 := State();
      PushShortKeepsInv(st0, price);
      if |shortDeque| == SHORT_WINDOW {
        shortSum := shortSum - shortDeque[0];
        shortDeque := shortDeque[1..];
      }
      shortDeque := shortDeque + [price];
      shortSum := shortSum + price;
      assert State() == st0.(shortDeque := Slide(st0.shortDeque, SHORT_WINDOW, price),
                             shortSum := PushSum(st0.shortDeque, st0.shortSum, SHORT_WINDOW, price));
    }

    method PushLong(price: real)
      requires Valid()
      modifies this
      ensures Valid()
      ensures State() == old(State()).(longDeque := Slide(old(longDeque), LONG_WINDOW, price),
                                       longSum := PushSum(old(longDeque), old(longSum), LONG_WINDOW, price))
    {
      ghost var st0 := State();
      PushLongKeepsInv(st0, price);
      if |longDeque| == LONG_WINDOW {
        longSum := longSum - longDeque[0];
        longDeque := longDeque[1..];
      }
      longDeque := longDeque + [price];
      longSum := longSum + price;
      assert State() == st0.(longDeque := Slide(st0.longDeque, LONG_WINDOW, price),
                             longSum := PushSum(st0.longDeque, st0.longSum, LONG_WINDOW, price));
    }

    /** Writes one order into the command block, field by field, bumping
        `command_id` last. */
    method Post(action: Action, price: real)
      modifies shm
      ensures shm.command == Order(old(shm.command), action, price)
      ensures shm.market == old(shm.market)
    {
      shm.command := shm.command.(action := action.Code());
      shm.command := shm.command.(quantity := TRADE_SIZE);
      shm.command := shm.command.(price := price);
      shm.command := shm.command.(commandId := NextId(shm.command.commandId));
    }

    /** One pass of the loop, with `now` the wall clock in milliseconds. */
    method Step(now: real) returns (outcome: Outcome)
      requires Valid()
      modifies this, shm
      ensures Valid() && shm.market == old(shm.market)
      ensures (State(), outcome) == LiveStep(old(State()), old(shm.market), now)
    {
      ghost var st0 := State();
      var m := shm.market;
      StepKeepsInv(st0, m, now);
      var dataAge := now - m.localTimeMs as real;
      if dataAge > STALE_MS {
        assert LiveStep(st0, m, now) == (st0, Stale);
        return Stale;
      }
      if m.localTimeMs == lastTime {
        assert LiveStep(st0, m, now) == (st0, SameTick);
        return SameTick;
      }
      var price := (m.bidPrice + m.askPrice) / 2.0;
      PushPrice(price);
      ghost var st1 := State();
      if |longDeque| < LONG_WINDOW {
        lastTime := m.localTimeMs;
        assert LiveStep(st0, m, now) == (State(), WarmingUp);
        return WarmingUp;
      }
      assert LiveStep(st0, m, now) == Trade(st1, m);
      outcome := Act(m);
    }

    /** Steps E to 8: signals, trailing stop and the filtered entry and exit. */
    method Act(m: MarketState<real>) returns (outcome: Outcome)
      requires Valid() && |longDeque| == LONG_WINDOW
      modifies this, shm
      ensures shm.market == old(shm.market)
      ensures (State(), outcome) == Trade(old(State()), m)
    {
      ghost var st0 := State();
      var bid, ask := m.bidPrice, m.askPrice;
      var price := (bid + ask) / 2.0;
      var realUsd, realBtc := m.realUsdtBalance, m.realBtcBalance;
      var shortAvg := shortSum / SHORT_WINDOW as real;
      var longAvg := longSum / LONG_WINDOW as real;

      if position == Long {
        if price > highest {
          highest := price;
        }
        var drawdown := highest - price;
        if drawdown > TRAILING_STOP {
          Post(Sell, ask - 10.0);
          position := Flat;
          highest := 0.0;
          return StopHit;
        }
      }
      assert highest == Peak(st0, price);

      outcome := NoTrade;
      if shortAvg > longAvg * (1.0 + THRESHOLD) {
        if position == Flat && realUsd > MIN_CASH && realBtc < MAX_INVENTORY {
          Post(Buy, bid + 0.01);
          position := Long;
          highest := price;
          outcome := Bought;
        }
      } else if shortAvg < longAvg {
        if position == Long && realBtc >= TRADE_SIZE {
          Post(Sell, ask - 0.01);
          position := Flat;
          highest := 0.0;
          outcome := Sold;
        }
      }
      lastTime := m.localTimeMs;
    }
  }
}
