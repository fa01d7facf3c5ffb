/** The hybrid controller: an externally supplied decision (the recurrent
    policy's action, taken here as an input) is overridden by an inventory
    cap and a take-profit rule on the cost basis, then gated by cash and
    inventory before a command is written to the shared record.  The cost
    basis follows each BUY as a weighted average. */
module HybridStrategy {
  import opened Common
  import opened Schema

  const MAX_INVENTORY: real := 0.005
  const TAKE_PROFIT_PCT: real := 0.002
  const ORDER_SIZE: real := 0.001
  const MIN_USD: real := 15.0

  function Mid(m: MarketState<real>): real
  {
    (m.bidPrice + m.askPrice) / 2.0
  }

  /** The cost basis after the startup sync: the current mid price when the
      wallet already holds BTC, else 0. */
  function StartupBasis(m: MarketState<real>): (r: real)
    ensures m.realBtcBalance > 0.0 ==> r == Mid(m)
    ensures m.realBtcBalance <= 0.0 ==> r == 0.0
  {
    if m.realBtcBalance > 0.0 then Mid(m) else 0.0
  }

  /** The policy's observation: a zero placeholder, the order-flow
      imbalance, the BTC held and another placeholder. */
  function Observation(m: MarketState<real>): (obs: seq<real>)
    ensures |obs| == 4 && obs[0] == 0.0 && obs[3] == 0.0
    ensures obs[2] == m.realBtcBalance
    ensures obs[1] == Ofi(m.bidQty, m.askQty)
  {
    [0.0, Ofi(m.bidQty, m.askQty), m.realBtcBalance, 0.0]
  }

  /** Rule B's trigger: holding BTC with a positive basis, and the mid price
      above the basis by more than the take-profit fraction. */
  predicate TakeProfit(realBtc: real, basis: real, mid: real)
  {
    realBtc > 0.0 && basis > 0.0 && (mid - basis) / basis > TAKE_PROFIT_PCT
  }

  /** Rules A and B, then the mapping of the decision: 1 is BUY, 3 is SELL,
      anything else is no action. */
  function FinalAction(realBtc: real, basis: real, mid: real, aiDecision: int): (r: Action)
    ensures TakeProfit(realBtc, basis, mid) ==> r == Sell
    ensures r == Buy <==> !TakeProfit(realBtc, basis, mid) && aiDecision == 1 && realBtc < MAX_INVENTORY
    ensures r == Sell <==> TakeProfit(realBtc, basis, mid) || aiDecision == 3
    ensures r == Hold <==> !TakeProfit(realBtc, basis, mid) && aiDecision != 3
                           && !(aiDecision == 1 && realBtc < MAX_INVENTORY)
  {
    var ai := if realBtc >= MAX_INVENTORY && aiDecision == 1 then 0 else aiDecision;
    var forced := if TakeProfit(realBtc, basis, mid) then Sell else Hold;
    if forced != Hold then forced
    else if ai == 1 then Buy
    else if ai == 3 then Sell
    else Hold
  }

  /** The weighted-average entry price after buying one order at `mid`. */
  function NewBasis(realBtc: real, basis: real, mid: real): real
    requires realBtc + ORDER_SIZE != 0.0
  {
    ((realBtc * basis) + (ORDER_SIZE * mid)) / (realBtc + ORDER_SIZE)
  }

  /** Multiplied back by the new holding, the basis gives the old cost plus
      the cost of the order. */
  lemma NewBasisWeighted(realBtc: real, basis: real, mid: real)
    requires realBtc + ORDER_SIZE != 0.0
    ensures NewBasis(realBtc, basis, mid) * (realBtc + ORDER_SIZE) == realBtc * basis + ORDER_SIZE * mid
  {
    var d := realBtc + ORDER_SIZE;
    var n := realBtc * basis + ORDER_SIZE * mid;
    assert NewBasis(realBtc, basis, mid) == n / d;
  }

  /** For a non-negative holding the new basis lies between the old basis and
      the mid price. */
  lemma BasisBetween(realBtc: real, basis: real, mid: real)
    requires realBtc >= 0.0
    ensures basis <= mid ==> basis <= NewBasis(realBtc, basis, mid) <= mid
    ensures mid <= basis ==> mid <= NewBasis(realBtc, basis, mid) <= basis
  {
    var d := realBtc + ORDER_SIZE;
    var w := ORDER_SIZE / d;
    var r := NewBasis(realBtc, basis, mid);
    assert 0.0 < w <= 1.0;
    assert r == basis + w * (mid - basis) by {
      assert r * d == realBtc * basis + ORDER_SIZE * mid;
      assert (basis + w * (mid - basis)) * d == basis * d + ORDER_SIZE * (mid - basis);
    }
    var x := mid - basis;
    if basis <= mid {
      MulNonNeg(w, x);
      MulNonNeg(1.0 - w, x);
      assert x - w * x == (1.0 - w) * x;
    } else {
      MulNonNeg(w, -x);
      MulNonNeg(1.0 - w, -x);
      assert w * x - x == (1.0 - w) * (-x);
    }
  }

  lemma MulNonNeg(a: real, b: real)
    requires a >= 0.0 && b >= 0.0
    ensures a * b >= 0.0
  {
  }

  /** The loop's own state beside the shared record. */
  datatype HybridState = HybridState(basis: real, lastTime: U64, command: StrategyCommand<real>)

  datatype Outcome =
    | SameTick      // the timestamp has not changed
    | Idle          // no command this pass
    | Bought        // BUY written and basis moved
    | Sold          // SELL written
    | DivisionError // BUY written, then the basis division fails
  {
    predicate Writes()
    {
      Bought? || Sold? || DivisionError?
    }
  }

  /** The command fields a write sets: action and quantity, and the id
      bumped; the price field is left as it was. */
  function Order(prev: StrategyCommand<real>, action: Action): (r: StrategyCommand<real>)
    ensures r.commandId == NextId(prev.commandId)
    ensures r.action == action.Code() && r.quantity == ORDER_SIZE && r.price == prev.price
  {
    prev.(action := action.Code(), quantity := ORDER_SIZE, commandId := NextId(prev.commandId))
  }

  /** One pass of the main loop for a snapshot of the market and a policy
      decision. */
  function HybridStep(st: HybridState, m: MarketState<real>, aiDecision: int): (r: (HybridState, Outcome))
  {
    if m.localTimeMs == st.lastTime then (st, SameTick)
    else Execute(st, m, FinalAction(m.realBtcBalance, st.basis, Mid(m), aiDecision).Code())
  }

  /** The execution block for the final action code, then the timestamp. */
  function Execute(st: HybridState, m: MarketState<real>, finalAction: int): (r: (HybridState, Outcome))
  {
    var realUsd := m.realUsdtBalance;
    var realBtc := m.realBtcBalance;
    var mid := Mid(m);
    var done := st.(lastTime := m.localTimeMs);
    if finalAction == 1 then
      if realUsd > MIN_USD then
        var cmd := Order(st.command, Buy);
        if realBtc + ORDER_SIZE == 0.0 then (st.(command := cmd), DivisionError)
        else (done.(command := cmd, basis := NewBasis(realBtc, st.basis, mid)), Bought)
      else (done, Idle)
    else if finalAction == 2 then
      if realBtc >= ORDER_SIZE then (done.(command := Order(st.command, Sell)), Sold)
      else (done, Idle)
    else (done, Idle)
  }

  /** A tick already seen changes nothing; every other pass that does not
      fail records the tick's timestamp. */
  lemma TickRule(st: HybridState, m: MarketState<real>, aiDecision: int)
    ensures var r := HybridStep(st, m, aiDecision);
      && (r.1 == SameTick <==> m.localTimeMs == st.lastTime)
      && (r.1 == SameTick ==> r.0 == st)
      && (r.1 != SameTick && r.1 != DivisionError ==> r.0.lastTime == m.localTimeMs)
  {
  }

  /** The execution guards: a BUY is written only for a BUY decision with
      more than 15 USD, a SELL only for a SELL decision with at least one
      order's worth of BTC; a written command bumps the id by one, sets the
      action and quantity, and leaves the price field; otherwise the
      command record is unchanged. */
  lemma ExecutionGuards(st: HybridState, m: MarketState<real>, aiDecision: int)
    ensures var r := HybridStep(st, m, aiDecision);
      var act := FinalAction(m.realBtcBalance, st.basis, Mid(m), aiDecision);
      && (r.1 == Bought || r.1 == DivisionError <==>
            m.localTimeMs != st.lastTime && act == Buy && m.realUsdtBalance > MIN_USD)
      && (r.1 == Sold <==> m.localTimeMs != st.lastTime && act == Sell && m.realBtcBalance >= ORDER_SIZE)
      && (r.1.Writes() ==> r.0.command == Order(st.command, if r.1 == Sold then Sell else Buy))
      && (!r.1.Writes() ==> r.0.command == st.command)
  {
  }

  /** A BUY moves the basis to the weighted average of the holding at the old
      basis and one order at the mid price, which lies between the
      old basis and the mid price when the holding is not negative; a SELL
      and a pass without a command leave it unchanged. */
  lemma BasisRule(st: HybridState, m: MarketState<real>, aiDecision: int)
    ensures var r := HybridStep(st, m, aiDecision);
      && (r.1 != Bought ==> r.0.basis == st.basis)
      && (r.1 == Bought ==>
            m.realBtcBalance + ORDER_SIZE != 0.0
            && r.0.basis * (m.realBtcBalance + ORDER_SIZE) == m.realBtcBalance * st.basis + ORDER_SIZE * Mid(m))
      && (r.1 == Bought && m.realBtcBalance >= 0.0 ==>
            (st.basis <= Mid(m) ==> st.basis <= r.0.basis <= Mid(m))
            && (Mid(m) <= st.basis ==> Mid(m) <= r.0.basis <= st.basis))
  {
    if HybridStep(st, m, aiDecision).1 == Bought {
      NewBasisWeighted(m.realBtcBalance, st.basis, Mid(m));
      if m.realBtcBalance >= 0.0 {
        BasisBetween(m.realBtcBalance, st.basis, Mid(m));
      }
    }
  }

  /** Right after the startup sync, with the market unchanged, the take-profit
      rule cannot fire: the basis equals the mid price or is zero. */
  lemma StartupNoTakeProfit(m: MarketState<real>)
    ensures !TakeProfit(m.realBtcBalance, StartupBasis(m), Mid(m))
  {
  }

  /** The controller's state over the shared record. */
  class HybridController {
    const shm: SharedMemory
    var avgEntryPrice: real
    var lastTime: U64

    function State(): HybridState
      reads this, shm
    {
      HybridState(avgEntryPrice, lastTime, shm.command)
    }

    /** Startup: the loop waits until a bid is present, then syncs the basis. */
    constructor (shm: SharedMemory)
      requires shm.market.bidPrice != 0.0
      ensures this.shm == shm
      ensures State() == HybridState(StartupBasis(shm.market), 0, shm.command)
    {
      this.shm := shm;
      lastTime := 0;
      var realBtc := shm.market.realBtcBalance;
      var midPrice := (shm.market.bidPrice + shm.market.askPrice) / 2.0;
      if realBtc > 0.0 {
        avgEntryPrice := midPrice;
      } else {
        avgEntryPrice := 0.0;
      }
    }

    /** One pass of the main loop with the policy's decision. */
    method Step(aiDecision: int) returns (outcome: Outcome)
      modifies this, shm
      ensures shm.market == old(shm.market)
      ensures (State(), outcome) == HybridStep(old(State()), old(shm.market), aiDecision)
    {
      var m := shm.market;
      if m.localTimeMs == lastTime {
        return SameTick;
      }

      // 1. Read state
      var realUsd := m.realUsdtBalance;
      var realBtc := m.realBtcBalance;
      var midPrice := (m.bidPrice + m.askPrice) / 2.0;

      // 3. Hybrid logic
      var finalAction := Decide(realBtc, midPrice, aiDecision);

      // 4. Execution
      outcome := ExecuteOrder(m, finalAction);
    }

    /** The execution block and the timestamp update. */
    method ExecuteOrder(m: MarketState<real>, finalAction: int) returns (outcome: Outcome)
      modifies this, shm
      ensures shm.market == old(shm.market)
      ensures (State(), outcome) == Execute(old(State()), m, finalAction)
    {
      ghost var st0 := State();
      var realUsd := m.realUsdtBalance;
      var realBtc := m.realBtcBalance;
      var midPrice := (m.bidPrice + m.askPrice) / 2.0;
      outcome := Idle;
      if finalAction == 1 {
        if realUsd > 15.0 {
          WriteCommand(1);
          if realBtc + 0.001 == 0.0 {
            assert Execute(st0, m, finalAction) == (st0.(command := shm.command), DivisionError);
            return DivisionError;
          }
          var totalValue := (realBtc * avgEntryPrice) + (0.001 * midPrice);
          avgEntryPrice := totalValue / (realBtc + 0.001);
          assert avgEntryPrice == NewBasis(realBtc, st0.basis, Mid(m));
          outcome := Bought;
        }
      } else if finalAction == 2 {
        if realBtc >= 0.001 {
          WriteCommand(2);
          outcome := Sold;
        }
      }
      lastTime := m.localTimeMs;
    }

    /** Action, quantity, then the id bump, as separate field writes. */
    method WriteCommand(action: int)
      requires action == 1 || action == 2
      modifies shm
      ensures shm.market == old(shm.market)
      ensures shm.command == Order(old(shm.command), if action == 1 then Buy else Sell)
    {
      shm.command := shm.command.(action := action);
      shm.command := shm.command.(quantity := 0.001);
      shm.command := shm.command.(commandId := NextId(shm.command.commandId));
    }

    /** Rules A and B and the mapping of the decision, on locals. */
    method Decide(realBtc: real, midPrice: real, aiDecision: int) returns (finalAction: int)
      ensures finalAction == FinalAction(realBtc, avgEntryPrice, midPrice, aiDecision).Code()
    {
      finalAction := 0;
      var ai := aiDecision;

      // Rule A: inventory cap
      if realBtc >= MAX_INVENTORY {
        if ai == 1 {
          ai := 0;
        }
      }

      // Rule B: take profit
      if realBtc > 0.0 && avgEntryPrice > 0.0 {
        var pnlPct := (midPrice - avgEntryPrice) / avgEntryPrice;
        if pnlPct > TAKE_PROFIT_PCT {
          finalAction := 2;
        }
      }

      if finalAction == 0 {
        if ai == 1 {
          finalAction := 1;
        } else if ai == 3 {
          finalAction := 2;
        }
      }
    }
  }
}
