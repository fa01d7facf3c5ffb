/** The per-tick backtest ledger: a cash/BTC wallet that buys or sells one
    lot of 0.001 BTC per signal, pays a proportional fee, and samples its
    equity every 1000 ticks, plus the arithmetic of the final report.  The
    strategy is the trend strategy object, called once per price with the
    current BTC and cash (which it ignores). */
module Backtest {
  import opened Common
  import opened Strategies

  /** The fixed lot traded per BUY or SELL. */
  const LOT: real := 0.001
  /** Equity is sampled on every tick whose running count is a multiple of this. */
  const SAMPLE_EVERY: nat := 1000

  datatype Wallet = Wallet(cash: real, btc: real)

  /** Marked-to-market value of a wallet. */
  function Equity(w: Wallet, price: real): real
  {
    w.cash + w.btc * price
  }

  /** The fee a lot pays at `price`. */
  function LotFee(price: real, feeRate: real): real
  {
    price * LOT * feeRate
  }

  /** The execution logic for one action code: 1 buys a lot when the cash
      covers cost plus fee, 2 sells a lot when the wallet holds one, and
      every other code does nothing.  A trade moves value between cash and
      BTC at `price`, so the equity at that price drops by exactly the fee. */
  function Execute(w: Wallet, action: int, price: real, feeRate: real): (r: Wallet)
    ensures r == w || r.btc == w.btc + LOT || r.btc == w.btc - LOT
    ensures r != w ==> (action == 1 && r.btc == w.btc + LOT) || (action == 2 && r.btc == w.btc - LOT)
    ensures Equity(r, price) == Equity(w, price) - (if r.btc == w.btc then 0.0 else LotFee(price, feeRate))
  {
    if action == 1 then
      var cost := price * LOT;
      var fee := cost * feeRate;
      if w.cash >= cost + fee then Wallet(w.cash - (cost + fee), w.btc + LOT) else w
    else if action == 2 then
      if w.btc >= LOT then
        var revenue := price * LOT;
        var fee := revenue * feeRate;
        Wallet(w.cash + (revenue - fee), w.btc - LOT)
      else w
    else w
  }

  /** BUY: the state changes only if the cash covers cost plus fee, and then
      cash falls by `price*0.001*(1+fee_rate)` and BTC rises by one lot. */
  lemma BuyRule(w: Wallet, price: real, feeRate: real)
    ensures var r := Execute(w, 1, price, feeRate);
      && (w.cash >= price * LOT + LotFee(price, feeRate) <==> r == Wallet(w.cash - price * LOT * (1.0 + feeRate), w.btc + LOT))
      && (w.cash < price * LOT + LotFee(price, feeRate) <==> r == w)
  {
  }

  /** SELL: the state changes only if the wallet holds a lot, and then cash
      rises by `price*0.001*(1-fee_rate)` and BTC falls by one lot. */
  lemma SellRule(w: Wallet, price: real, feeRate: real)
    ensures var r := Execute(w, 2, price, feeRate);
      && (w.btc >= LOT <==> r == Wallet(w.cash + price * LOT * (1.0 - feeRate), w.btc - LOT))
      && (w.btc < LOT <==> r == w)
  {
  }

  /** With non-negative prices and a fee rate in [0, 1], no action makes cash
      or BTC negative. */
  lemma ExecuteNonNegative(w: Wallet, action: int, price: real, feeRate: real)
    requires w.cash >= 0.0 && w.btc >= 0.0
    requires price >= 0.0 && 0.0 <= feeRate <= 1.0
    ensures Execute(w, action, price, feeRate).cash >= 0.0
    ensures Execute(w, action, price, feeRate).btc >= 0.0
  {
    if action == 2 && w.btc >= LOT {
      assert price * LOT * (1.0 - feeRate) >= 0.0;
    }
  }

  /** The engine's counters and samples beside the wallet. */
  datatype Ledger = Ledger(wallet: Wallet, equityCurve: seq<real>, totalTicks: nat)

  function Fresh(initialCash: real): Ledger
  {
    Ledger(Wallet(initialCash, 0.0), [], 0)
  }

  /** The first half of a row: count the tick and, when the count is a
      multiple of 1000, sample the equity at the new price with the wallet as
      it was before this tick's action. */
  function Counted(l: Ledger, price: real): (r: Ledger)
    ensures r.wallet == l.wallet && r.totalTicks == l.totalTicks + 1
    ensures r.equityCurve == l.equityCurve + (if r.totalTicks % SAMPLE_EVERY == 0 then [Equity(l.wallet, price)] else [])
    ensures |l.equityCurve| == l.totalTicks / SAMPLE_EVERY ==> |r.equityCurve| == r.totalTicks / SAMPLE_EVERY
  {
    var ticks := l.totalTicks + 1;
    TickCount(l.totalTicks);
    l.(equityCurve := if ticks % SAMPLE_EVERY == 0 then l.equityCurve + [Equity(l.wallet, price)] else l.equityCurve,
       totalTicks := ticks)
  }

  /** One row: count and sample, then execute the action. */
  function Row(l: Ledger, feeRate: real, price: real, action: int): (r: Ledger)
    ensures r.totalTicks == l.totalTicks + 1
    ensures |l.equityCurve| == l.totalTicks / SAMPLE_EVERY ==> |r.equityCurve| == r.totalTicks / SAMPLE_EVERY
  {
    var counted := Counted(l, price);
    counted.(wallet := Execute(counted.wallet, action, price, feeRate))
  }

  /** Counting one more tick adds one thousand-block exactly when the new
      count is a multiple of 1000. */
  lemma TickCount(t: nat)
    ensures (t + 1) / SAMPLE_EVERY == t / SAMPLE_EVERY + (if (t + 1) % SAMPLE_EVERY == 0 then 1 else 0)
  {
    var q := t / SAMPLE_EVERY;
    var m := t % SAMPLE_EVERY;
    assert t == q * SAMPLE_EVERY + m && 0 <= m < SAMPLE_EVERY;
    if m + 1 == SAMPLE_EVERY {
      assert t + 1 == (q + 1) * SAMPLE_EVERY;
    } else {
      assert t + 1 == q * SAMPLE_EVERY + (m + 1);
    }
  }

  /** Processing a series of prices with the action codes the strategy
      returned for them. */
  function Replay(l: Ledger, feeRate: real, prices: seq<real>, actions: seq<int>): (r: Ledger)
    requires |prices| == |actions|
    ensures r.totalTicks == l.totalTicks + |prices|
    ensures |l.equityCurve| == l.totalTicks / SAMPLE_EVERY ==> |r.equityCurve| == r.totalTicks / SAMPLE_EVERY
  {
    if prices == [] then l
    else
      var n := |prices| - 1;
      Row(Replay(l, feeRate, prices[..n], actions[..n]), feeRate, prices[n], actions[n])
  }

  lemma ReplayAppend(l: Ledger, feeRate: real, prices: seq<real>, actions: seq<int>, p: real, a: int)
    requires |prices| == |actions|
    ensures Replay(l, feeRate, prices + [p], actions + [a]) == Row(Replay(l, feeRate, prices, actions), feeRate, p, a)
  {
    assert (prices + [p])[..|prices|] == prices;
    assert (actions + [a])[..|actions|] == actions;
  }

  /** From a fresh engine, the equity curve has one entry per full block of
      1000 ticks. */
  lemma CurveLength(initialCash: real, feeRate: real, prices: seq<real>, actions: seq<int>)
    requires |prices| == |actions|
    ensures Replay(Fresh(initialCash), feeRate, prices, actions).totalTicks == |prices|
    ensures |Replay(Fresh(initialCash), feeRate, prices, actions).equityCurve| == |prices| / SAMPLE_EVERY
  {
  }

  /** Starting from a non-negative wallet, with non-negative prices and a fee
      rate in [0, 1], cash and BTC stay non-negative whatever the actions. */
  lemma {:induction false} ReplayNonNegative(l: Ledger, feeRate: real, prices: seq<real>, actions: seq<int>)
    requires |prices| == |actions|
    requires l.wallet.cash >= 0.0 && l.wallet.btc >= 0.0 && 0.0 <= feeRate <= 1.0
    requires forall i :: 0 <= i < |prices| ==> prices[i] >= 0.0
    ensures Replay(l, feeRate, prices, actions).wallet.cash >= 0.0
    ensures Replay(l, feeRate, prices, actions).wallet.btc >= 0.0
  {
    if prices != [] {
      var n := |prices| - 1;
      ReplayNonNegative(l, feeRate, prices[..n], actions[..n]);
      ExecuteNonNegative(Replay(l, feeRate, prices[..n], actions[..n]).wallet, actions[n], prices[n], feeRate);
    }
  }

  /** Actions other than 1 and 2 never touch the wallet. */
  lemma {:induction false} ReplayIdle(l: Ledger, feeRate: real, prices: seq<real>, actions: seq<int>)
    requires |prices| == |actions|
    requires forall i :: 0 <= i < |actions| ==> actions[i] != 1 && actions[i] != 2
    ensures Replay(l, feeRate, prices, actions).wallet == l.wallet
  {
    if prices != [] {
      var n := |prices| - 1;
      ReplayIdle(l, feeRate, prices[..n], actions[..n]);
    }
  }

  /** The strategy flips its own position on its signal, whatever the
      ledger does: a BUY signal the cash cannot cover leaves the wallet
      unchanged but the strategy LONG. */
  lemma RejectedBuyStillFlips(c: TrendConfig, st: TrendState, price: real, w: Wallet, feeRate: real)
    requires ValidConfig(c) && |st.shortDeque| <= c.shortWindow && |st.longDeque| <= c.longWindow
    requires DecideStep(c, st, price).1 == Buy
    requires w.cash < price * LOT + LotFee(price, feeRate)
    ensures DecideStep(c, st, price).0.position == Long
    ensures Execute(w, Buy.Code(), price, feeRate) == w
  {
  }

  /** The figures of the final report. */
  datatype Report = Report(finalEquity: real, pnl: real, ret: real)

  /** `generate_report`: equity at the final price, profit against the
      initial cash, and the return in percent.  A zero initial cash makes the
      source's division fail; the model returns `None` there. */
  function ReportFigures(initialCash: real, w: Wallet, finalPrice: real): (r: Option<Report>)
    ensures r.None? <==> initialCash == 0.0
    ensures r.Some? ==> r.value.finalEquity == w.cash + w.btc * finalPrice
    ensures r.Some? ==> r.value.pnl == r.value.finalEquity - initialCash
    ensures r.Some? ==> r.value.ret * initialCash == r.value.pnl * 100.0
  {
    if initialCash == 0.0 then None
    else
      var finalEquity := Equity(w, finalPrice);
      var pnl := finalEquity - initialCash;
      Some(Report(finalEquity, pnl, (pnl / initialCash) * 100.0))
  }

  /** The integer codes of a sequence of actions. */
  function Codes(acts: seq<Action>): (r: seq<int>)
    ensures |r| == |acts|
    ensures forall i :: 0 <= i < |acts| ==> r[i] == acts[i].Code()
  {
    if acts == [] then [] else Codes(acts[..|acts| - 1]) + [acts[|acts| - 1].Code()]
  }

  /** A trade log entry; the source keeps the list but never appends to it. */
  datatype TradeRecord = TradeRecord(tick: nat, action: int, price: real)

  class BacktestEngine {
    const initialCash: real
    const feeRate: real
    var cash: real
    var btc: real
    var equityCurve: seq<real>
    var trades: seq<TradeRecord>
    var totalTicks: nat

    function State(): Ledger
      reads this
    {
      Ledger(Wallet(cash, btc), equityCurve, totalTicks)
    }

    constructor (initialCash: real := 10000.0, feeRate: real := 0.001)
      ensures this.initialCash == initialCash && this.feeRate == feeRate
      ensures State() == Fresh(initialCash) && trades == []
    {
      this.initialCash := initialCash;
      this.feeRate := feeRate;
      cash := initialCash;
      btc := 0.0;
      equityCurve := [];
      trades := [];
      totalTicks := 0;
    }

    /** The body of the row loop, with the trend strategy's `decide` as the
        strategy function. */
    method ProcessRow(price: real, strategy: TrendStrategy) returns (action: Action)
      requires strategy.Valid()
      modifies this, strategy
      ensures strategy.Valid()
      ensures (strategy.State(), action) == DecideStep(strategy.Config(), old(strategy.State()), price)
      ensures State() == Row(old(State()), feeRate, price, action.Code())
      ensures trades == old(trades)
    {
      CountTick(price);
      action := strategy.Decide(price, btc, cash);
      ExecuteAction(action.Code(), price);
    }

    /** The tick counter and the equity sample of the row loop. */
    method CountTick(currentPrice: real)
      modifies this
      ensures State() == Counted(old(State()), currentPrice) && trades == old(trades)
    {
      ghost var l0 := State();
      totalTicks := totalTicks + 1;
      if totalTicks % SAMPLE_EVERY == 0 {
        var equity := cash + btc * currentPrice;
        assert equity == Equity(l0.wallet, currentPrice);
        equityCurve := equityCurve + [equity];
      }
    }

    /** The execution block of the row loop. */
    method ExecuteAction(action: int, currentPrice: real)
      modifies this
      ensures Wallet(cash, btc) == Execute(old(Wallet(cash, btc)), action, currentPrice, feeRate)
      ensures equityCurve == old(equityCurve) && totalTicks == old(totalTicks) && trades == old(trades)
    {
      if action == 1 {
        var cost := currentPrice * LOT;
        var fee := cost * feeRate;
        if cash >= cost + fee {
          cash := cash - (cost + fee);
          btc := btc + LOT;
        }
      } else if action == 2 {
        if btc >= LOT {
          var revenue := currentPrice * LOT;
          var fee := revenue * feeRate;
          cash := cash + (revenue - fee);
          btc := btc - LOT;
        }
      }
    }

    /** `run` over a price series, then the report at the last price.  An
        empty series leaves the source without a last row; the model reports
        `None` there. */
    method Run(prices: seq<real>, strategy: TrendStrategy) returns (report: Option<Report>)
      requires strategy.Valid()
      modifies this, strategy
      ensures strategy.Valid()
      ensures strategy.State() == Strategies.Run(strategy.Config(), old(strategy.State()), prices).0
      ensures State() == Replay(old(State()), feeRate, prices,
                                Codes(Strategies.Run(strategy.Config(), old(strategy.State()), prices).1))
      ensures trades == old(trades)
      ensures report == if prices == [] then None
                        else ReportFigures(initialCash, Wallet(cash, btc), prices[|prices| - 1])
    {
      RunRows(prices, strategy);
      if prices == [] {
        report := None;
      } else {
        var finalPrice := prices[|prices| - 1];
        report := GenerateReport(finalPrice);
      }
    }

    /** The row loop of `run`. */
    method RunRows(prices: seq<real>, strategy: TrendStrategy)
      requires strategy.Valid()
      modifies this, strategy
      ensures strategy.Valid()
      ensures strategy.State() == Strategies.Run(strategy.Config(), old(strategy.State()), prices).0
      ensures State() == Replay(old(State()), feeRate, prices,
                                Codes(Strategies.Run(strategy.Config(), old(strategy.State()), prices).1))
      ensures trades == old(trades)
    {
      ghost var l0 := State();
      ghost var s0 := strategy.State();
      ghost var c := strategy.Config();
      var i := 0;
      while i < |prices|
        invariant 0 <= i <= |prices|
        invariant strategy.Valid() && strategy.Config() == c
        invariant strategy.State() == Strategies.Run(c, s0, prices[..i]).0
        invariant State() == Replay(l0, feeRate, prices[..i], Codes(Strategies.Run(c, s0, prices[..i]).1))
        invariant trades == old(trades)
      {
        ghost var before := Strategies.Run(c, s0, prices[..i]);
        ghost var step := DecideStep(c, before.0, prices[i]);
        var a := ProcessRow(prices[i], strategy);
        assert (strategy.State(), a) == step;
        EngineStep(l0, feeRate, c, s0, prices[..i], prices[i]);
        TakeOneMore(prices, i);
        i := i + 1;
      }
      assert prices[..i] == prices;
    }

    /** `generate_report(final_price)`. */
    method GenerateReport(finalPrice: real) returns (report: Option<Report>)
      ensures report == ReportFigures(initialCash, Wallet(cash, btc), finalPrice)
    {
      if initialCash == 0.0 {
        return None;
      }
      var finalEquity := cash + btc * finalPrice;
      var pnl := finalEquity - initialCash;
      var ret := (pnl / initialCash) * 100.0;
      report := Some(Report(finalEquity, pnl, ret));
      assert finalEquity == Equity(Wallet(cash, btc), finalPrice);
    }
  }

  lemma CodesAppend(acts: seq<Action>, a: Action)
    ensures Codes(acts + [a]) == Codes(acts) + [a.Code()]
  {
    assert (acts + [a])[..|acts|] == acts;
  }

  lemma TakeOneMore(s: seq<real>, i: nat)
    requires i < |s|
    ensures s[..i + 1] == s[..i] + [s[i]]
  {
  }

  /** One more price extends the engine's replay by one row, with the action
      the strategy returns for that price. */
  lemma EngineStep(l0: Ledger, feeRate: real, c: TrendConfig, s0: TrendState, ps: seq<real>, p: real)
    requires ValidConfig(c) && |s0.shortDeque| <= c.shortWindow && |s0.longDeque| <= c.longWindow
    ensures var before := Strategies.Run(c, s0, ps);
      var step := DecideStep(c, before.0, p);
      && Strategies.Run(c, s0, ps + [p]) == (step.0, before.1 + [step.1])
      && Replay(l0, feeRate, ps + [p], Codes(Strategies.Run(c, s0, ps + [p]).1))
         == Row(Replay(l0, feeRate, ps, Codes(before.1)), feeRate, p, step.1.Code())
  {
    var before := Strategies.Run(c, s0, ps);
    var step := DecideStep(c, before.0, p);
    assert (ps + [p])[..|ps|] == ps;
    assert Strategies.Run(c, s0, ps + [p]) == (step.0, before.1 + [step.1]);
    CodesAppend(before.1, step.1);
    ReplayAppend(l0, feeRate, ps, Codes(before.1), p, step.1.Code());
  }
}
