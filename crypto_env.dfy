/** The reinforcement-learning market-making environment: a cursor over a
    table of ticks, an inventory that the agent's actions move by one lot,
    a cash figure that no action touches, and a deque of the last 20 prices
    seen.  The volatility feature and the reward are not part of this
    model; the observation keeps the spread placeholder, the flow proxy and
    the inventory. */
module CryptoEnv {
  import opened Common
  import Rolling

  const START_CASH: real := 10000.0
  const LOT: real := 0.001
  const WINDOW: nat := 20

  /** One row of the data frame: the trade price and the buyer-is-maker
      flag used as a flow proxy. */
  datatype Tick = Tick(price: real, ibm: real)

  /** The episode length: the whole table when 0 is given, else the smaller
      of the table length and the request. */
  function MaxSteps(rows: nat, requested: int): (r: int)
    ensures requested == 0 ==> r == rows
    ensures requested != 0 ==> r <= rows && r <= requested && (r == rows || r == requested)
  {
    if requested == 0 then rows else if rows <= requested then rows else requested
  }

  /** Spread placeholder, flow proxy, inventory. */
  datatype Observation = Observation(spread: real, flow: real, inventory: real)

  datatype EnvState = EnvState(step: int, inventory: real, cash: real, recent: seq<real>)

  /** The cursor is never negative, except after the clamp on an empty
      table, which leaves it at -1. */
  predicate Inv(df: seq<Tick>, s: EnvState)
  {
    (0 <= s.step || (s.step == -1 && |df| == 0)) && |s.recent| <= WINDOW
  }

  /** The state `reset` starts from. */
  function Initial(): EnvState
  {
    EnvState(0, 0.0, START_CASH, [])
  }

  /** The next observation: clamp the cursor to the last row, push the row's
      price into the deque, and report the row's flow and the inventory.
      An empty table has no row to read. */
  function Observe(df: seq<Tick>, s: EnvState): (r: (EnvState, Option<Observation>))
    requires Inv(df, s)
    ensures Inv(df, r.0)
    ensures r.0.step == (if s.step >= |df| then |df| - 1 else s.step) && r.0.step <= |df| - 1
    ensures r.0.inventory == s.inventory && r.0.cash == s.cash
    ensures r.1.Some? <==> |df| > 0
    ensures r.1.None? ==> r.0.recent == s.recent
    ensures r.1.Some? ==>
      && r.0.recent == Rolling.Slide(s.recent, WINDOW, df[r.0.step].price)
      && r.0.recent[|r.0.recent| - 1] == df[r.0.step].price
      && r.1.value == Observation(0.0, df[r.0.step].ibm, s.inventory)
  {
    var step := if s.step >= |df| then |df| - 1 else s.step;
    if step < 0 then (s.(step := step), None)
    else
      var row := df[step];
      (s.(step := step, recent := Rolling.Slide(s.recent, WINDOW, row.price)),
       Some(Observation(0.0, row.ibm, s.inventory)))
  }

  /** `reset`: back to the initial state, then the first observation. */
  function ResetState(df: seq<Tick>): (r: (EnvState, Option<Observation>))
  {
    Observe(df, Initial())
  }

  /** Action 1 buys one lot and action 3 sells one, with no bound either
      way; every other action leaves the inventory. */
  function Inventory(inventory: real, action: int): real
  {
    if action == 1 then inventory + LOT
    else if action == 3 then inventory - LOT
    else inventory
  }

  /** `step`: advance the cursor, read that row (which fails past the end
      of the table), move the inventory and observe.  The flag is
      `terminated`. */
  function StepState(df: seq<Tick>, maxSteps: int, s: EnvState, action: int): (r: (EnvState, Option<(Observation, bool)>))
    requires Inv(df, s)
    ensures Inv(df, r.0)
  {
    var step := s.step + 1;
    var terminated := step >= maxSteps - 1;
    if step >= |df| then (s.(step := step), None)
    else
      var (s2, obs) := Observe(df, s.(step := step, inventory := Inventory(s.inventory, action)));
      (s2, if obs.Some? then Some((obs.value, terminated)) else None)
  }

  /** After `reset` the inventory is 0, the cash is the starting cash, and
      on a non-empty table the cursor is at row 0 with only that row's price
      in the deque. */
  lemma ResetRule(df: seq<Tick>)
    ensures var r := ResetState(df);
      && r.0.inventory == 0.0 && r.0.cash == START_CASH
      && (r.1.Some? <==> |df| > 0)
      && (|df| > 0 ==>
            r.0.step == 0 && r.0.recent == [df[0].price] && r.1.value == Observation(0.0, df[0].ibm, 0.0))
      && (|df| == 0 ==> r.0.step == -1 && r.0.recent == [])
  {
  }

  /** `step` moves the cursor by one, succeeds exactly when the new cursor
      is inside the table, reports `terminated` exactly when the cursor has
      reached `maxSteps - 1`, moves the inventory by the action's lot and
      never changes the cash; the observation carries the new inventory. */
  lemma StepRule(df: seq<Tick>, maxSteps: int, s: EnvState, action: int)
    requires Inv(df, s)
    ensures var r := StepState(df, maxSteps, s, action);
      && r.0.step == s.step + 1
      && (r.1.Some? <==> s.step + 1 < |df|)
      && r.0.cash == s.cash
      && (r.1.Some? ==>
            && (r.1.value.1 <==> s.step + 1 >= maxSteps - 1)
            && r.0.inventory == Inventory(s.inventory, action)
            && r.1.value.0.inventory == r.0.inventory
            && r.1.value.0.flow == df[s.step + 1].ibm)
      && (r.1.None? ==> r.0.inventory == s.inventory && r.0.recent == s.recent)
  {
  }

  /** The inventory rule by action code. */
  lemma InventoryRule(inventory: real, action: int)
    ensures action == 1 ==> Inventory(inventory, action) == inventory + LOT
    ensures action == 3 ==> Inventory(inventory, action) == inventory - LOT
    ensures action != 1 && action != 3 ==> Inventory(inventory, action) == inventory
  {
  }

  /** An episode: the steps for the actions in order; the flag is false once
      a step has failed. */
  function Run(df: seq<Tick>, maxSteps: int, s: EnvState, actions: seq<int>): (r: (EnvState, bool))
    requires Inv(df, s)
    ensures Inv(df, r.0)
  {
    if actions == [] then (s, true)
    else
      var (p, ok) := Run(df, maxSteps, s, actions[..|actions| - 1]);
      if !ok then (p, false)
      else
        var (q, res) := StepState(df, maxSteps, p, actions[|actions| - 1]);
        (q, res.Some?)
  }

  /** How often `code` occurs in `actions`. */
  function Count(actions: seq<int>, code: int): nat
  {
    if actions == [] then 0
    else Count(actions[..|actions| - 1], code) + (if actions[|actions| - 1] == code then 1 else 0)
  }

  /** The prices of the first `n` rows. */
  function Prices(df: seq<Tick>, n: nat): (r: seq<real>)
    requires n <= |df|
    ensures |r| == n && forall i :: 0 <= i < n ==> r[i] == df[i].price
  {
    if n == 0 then [] else Prices(df, n - 1) + [df[n - 1].price]
  }

  /** An episode after `reset` succeeds exactly when the table has more rows
      than actions.  Then the cursor equals the number of actions, the cash
      is untouched, the inventory is one lot per BUY minus one lot per SELL,
      and the deque holds the last 20 prices of the rows visited. */
  lemma {:induction false} EpisodeRule(df: seq<Tick>, maxSteps: int, actions: seq<int>)
    requires |df| > 0
    ensures var r := Run(df, maxSteps, ResetState(df).0, actions);
      && (r.1 <==> |actions| < |df|)
      && (r.1 ==>
            && r.0.step == |actions|
            && r.0.cash == START_CASH
            && r.0.inventory == LOT * (Count(actions, 1) as real - Count(actions, 3) as real)
            && r.0.recent == Rolling.LastN(Prices(df, |actions| + 1), WINDOW))
  {
    EpisodeWindow(df, maxSteps, actions);
    if |actions| < |df| {
      Rolling.SlideAllIsLastN(Prices(df, |actions| + 1), WINDOW);
    }
  }

  /** The state after a successful episode of `actions` from `reset`. */
  predicate Visited(df: seq<Tick>, s: EnvState, actions: seq<int>)
    requires |actions| < |df|
  {
    && s.step == |actions|
    && s.cash == START_CASH
    && s.inventory == LOT * (Count(actions, 1) as real - Count(actions, 3) as real)
    && s.recent == Rolling.SlideAll(Prices(df, |actions| + 1), WINDOW)
  }

  /** The induction behind `EpisodeRule`, with the deque as `SlideAll`. */
  lemma {:induction false} EpisodeWindow(df: seq<Tick>, maxSteps: int, actions: seq<int>)
    requires |df| > 0
    ensures var r := Run(df, maxSteps, ResetState(df).0, actions);
      && (r.1 <==> |actions| < |df|)
      && (r.1 ==> Visited(df, r.0, actions))
  {
    if actions == [] {
      EpisodeStart(df);
    } else {
      var init := actions[..|actions| - 1];
      var a := actions[|actions| - 1];
      assert init + [a] == actions;
      EpisodeWindow(df, maxSteps, init);
      var p := Run(df, maxSteps, ResetState(df).0, init);
      RunLast(df, maxSteps, ResetState(df).0, init, a);
      if p.1 {
        EpisodeStep(df, maxSteps, p.0, init, a);
      }
    }
  }

  /** `Run` over one more action. */
  lemma RunLast(df: seq<Tick>, maxSteps: int, s: EnvState, init: seq<int>, a: int)
    requires Inv(df, s)
    ensures var p := Run(df, maxSteps, s, init);
      Run(df, maxSteps, s, init + [a])
        == if !p.1 then (p.0, false)
           else (StepState(df, maxSteps, p.0, a).0, StepState(df, maxSteps, p.0, a).1.Some?)
  {
    assert (init + [a])[..|init|] == init;
  }

  lemma EpisodeStart(df: seq<Tick>)
    requires |df| > 0
    ensures Visited(df, ResetState(df).0, [])
  {
    assert Prices(df, 1) == [df[0].price];
    assert Prices(df, 1)[..0] == [];
  }

  /** One more step of a successful episode keeps the four facts. */
  lemma EpisodeStep(df: seq<Tick>, maxSteps: int, p: EnvState, init: seq<int>, a: int)
    requires Inv(df, p) && |init| < |df| && Visited(df, p, init)
    ensures var r := StepState(df, maxSteps, p, a);
      && (r.1.Some? <==> |init| + 1 < |df|)
      && (r.1.Some? ==> Visited(df, r.0, init + [a]))
  {
    var actions := init + [a];
    StepRule(df, maxSteps, p, a);
    if |actions| < |df| {
      var r := StepState(df, maxSteps, p, a);
      CountStep(init, a, 1);
      CountStep(init, a, 3);
      InventoryStep(p.inventory, Count(init, 1), Count(init, 3), a);
      WindowStep(df, |actions|);
      assert r.0.recent == Rolling.Slide(p.recent, WINDOW, df[|actions|].price);
    }
  }

  lemma CountStep(init: seq<int>, a: int, code: int)
    ensures Count(init + [a], code) == Count(init, code) + (if a == code then 1 else 0)
  {
    assert (init + [a])[..|init|] == init;
  }

  lemma InventoryStep(inventory: real, buys: nat, sells: nat, a: int)
    requires inventory == LOT * (buys as real - sells as real)
    ensures Inventory(inventory, a)
      == LOT * ((buys + if a == 1 then 1 else 0) as real - (sells + if a == 3 then 1 else 0) as real)
  {
  }

  lemma WindowStep(df: seq<Tick>, n: nat)
    requires 0 < n < |df|
    ensures Rolling.SlideAll(Prices(df, n + 1), WINDOW)
      == Rolling.Slide(Rolling.SlideAll(Prices(df, n), WINDOW), WINDOW, df[n].price)
  {
    var h := Prices(df, n + 1);
    assert h[..|h| - 1] == Prices(df, n);
  }

  /** The environment object; the table and the episode length are fixed at
      construction. */
  class MarketMakingEnv {
    const df: seq<Tick>
    const maxSteps: int
    var currentStep: int
    var inventory: real
    var cash: real
    var recentPrices: seq<real>

    function State(): EnvState
      reads this
    {
      EnvState(currentStep, inventory, cash, recentPrices)
    }

    predicate Valid()
      reads this
    {
      Inv(df, State())
    }

    constructor (df: seq<Tick>, maxSteps: int)
      ensures this.df == df && this.maxSteps == MaxSteps(|df|, maxSteps)
      ensures State() == Initial() && Valid()
    {
      this.df := df;
      this.maxSteps := if maxSteps == 0 then |df| else if |df| <= maxSteps then |df| else maxSteps;
      currentStep := 0;
      inventory := 0.0;
      cash := 10000.0;
      recentPrices := [];
    }

    method Reset() returns (obs: Option<Observation>)
      requires Valid()
      modifies this
      ensures Valid()
      ensures (State(), obs) == ResetState(df)
    {
      currentStep := 0;
      inventory := 0.0;
      cash := 10000.0;
      recentPrices := [];
      obs := NextObservation();
    }

    /** Clamp, read the row, push its price (dropping the oldest past 20)
        and build the observation. */
    method NextObservation() returns (obs: Option<Observation>)
      requires Valid()
      modifies this
      ensures Valid()
      ensures (State(), obs) == Observe(df, old(State()))
    {
      if currentStep >= |df| {
        currentStep := |df| - 1;
      }
      if currentStep < 0 {
        return None;
      }
      var row := df[currentStep];
      ghost var before := recentPrices;
      recentPrices := recentPrices + [row.price];
      if |recentPrices| > 20 {
        recentPrices := recentPrices[1..];
        assert recentPrices == before[1..] + [row.price];
      }
      obs := Some(Observation(0.0, row.ibm, inventory));
    }

    method Step(action: int) returns (result: Option<(Observation, bool)>)
      requires Valid()
      modifies this
      ensures Valid()
      ensures (State(), result) == StepState(df, maxSteps, old(State()), action)
    {
      currentStep := currentStep + 1;
      var terminated := currentStep >= maxSteps - 1;
      if currentStep >= |df| {
        return None;
      }
      if action == 1 {
        inventory := inventory + 0.001;
      } else if action == 3 {
        inventory := inventory - 0.001;
      }
      var obs := NextObservation();
      result := if obs.Some? then Some((obs.value, terminated)) else None;
    }
  }
}
