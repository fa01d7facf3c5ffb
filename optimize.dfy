/** The brute-force parameter sweep: for every (short, long, threshold)
    combination with short < long, derive the batch signal series from two
    rolling means, trade one lot only where the signal changes, record the
    profit, and finally rank the combinations by profit. */
module Optimize {
  import opened Common
  import opened Rolling

  /** A rolling-window length; the search space holds positive ones only. */
  type Window = w: nat | 0 < w witness 1

  const SHORT_WINDOWS: seq<Window> := [1000, 3000, 5000, 10000]
  const LONG_WINDOWS: seq<Window> := [10000, 30000, 50000, 100000]
  const THRESHOLDS: seq<real> := [0.0005, 0.001, 0.002]

  const START_CASH: real := 10000.0
  const FEE_RATE: real := 0.001
  const LOT: real := 0.001

  datatype Combo = Combo(short: Window, long: Window, thresh: real)

  /** The rows of `itertools.product(shorts, longs, thresholds)`, in its
      order: the last list varies fastest. */
  function Product(ss: seq<Window>, ls: seq<Window>, ts: seq<real>): (r: seq<Combo>)
    ensures forall c :: c in r <==> c.short in ss && c.long in ls && c.thresh in ts
  {
    if ss == [] then []
    else
      ProductRow(ss[0], ls, ts) + Product(ss[1..], ls, ts)
  }

  /** The combinations with a fixed short window. */
  function ProductRow(s: Window, ls: seq<Window>, ts: seq<real>): (r: seq<Combo>)
    ensures forall c :: c in r <==> c.short == s && c.long in ls && c.thresh in ts
  {
    if ls == [] then []
    else
      ProductCell(s, ls[0], ts) + ProductRow(s, ls[1..], ts)
  }

  function ProductCell(s: Window, l: Window, ts: seq<real>): (r: seq<Combo>)
    ensures |r| == |ts|
    ensures forall c :: c in r <==> c.short == s && c.long == l && c.thresh in ts
  {
    if ts == [] then [] else [Combo(s, l, ts[0])] + ProductCell(s, l, ts[1..])
  }

  function Combinations(): seq<Combo>
  {
    Product(SHORT_WINDOWS, LONG_WINDOWS, THRESHOLDS)
  }

  /** `Series.rolling(window=w).mean()` at index `i`: undefined (NaN) until
      `w` values are available, then the mean of the last `w` values. */
  function RollingMean(prices: seq<real>, w: Window, i: nat): (r: Option<real>)
    requires i < |prices|
    ensures r.Some? <==> i + 1 >= w
  {
    if i + 1 < w then None else Some(Sum(prices[i + 1 - w..i + 1]) / (w as real))
  }

  /** The batch mean is the mean of the streaming window: the window after
      pushing `prices[..i+1]` one by one into a deque of size `w`. */
  lemma BatchMeanIsWindowMean(prices: seq<real>, w: Window, i: nat)
    requires i < |prices| && i + 1 >= w
    ensures RollingMean(prices, w, i) == Some(Sum(SlideAll(prices[..i + 1], w)) / (w as real))
  {
    SlideAllIsLastN(prices[..i + 1], w);
    assert prices[..i + 1][i + 1 - w..] == prices[i + 1 - w..i + 1];
  }

  /** The two `np.where` passes: 1 above the band, then -1 below the long
      mean overriding it; comparisons with NaN are false, giving 0. */
  function SignalAt(shortMa: Option<real>, longMa: Option<real>, thresh: real): (r: int)
    ensures r == -1 <==> shortMa.Some? && longMa.Some? && shortMa.value < longMa.value
    ensures r == 1 <==> shortMa.Some? && longMa.Some? && !(shortMa.value < longMa.value)
                        && shortMa.value > longMa.value * (1.0 + thresh)
    ensures -1 <= r <= 1
  {
    var above := if shortMa.Some? && longMa.Some? && shortMa.value > longMa.value * (1.0 + thresh) then 1 else 0;
    if shortMa.Some? && longMa.Some? && shortMa.value < longMa.value then -1 else above
  }

  /** The whole signal series of one combination. */
  function Signals(prices: seq<real>, c: Combo): (r: seq<int>)
    ensures |r| == |prices|
    ensures forall i :: 0 <= i < |r| ==> -1 <= r[i] <= 1
    ensures forall i :: 0 <= i < |r| && (i + 1 < c.long || i + 1 < c.short) ==> r[i] == 0
  {
    seq(|prices|, i requires 0 <= i < |prices| =>
      SignalAt(RollingMean(prices, c.short, i), RollingMean(prices, c.long, i), c.thresh))
  }

  /** The signal at index `i` follows the rule on the two rolling means. */
  lemma SignalRule(prices: seq<real>, c: Combo, i: nat)
    requires i < |prices| && i + 1 >= c.long && i + 1 >= c.short
    ensures var s := RollingMean(prices, c.short, i).value;
      var l := RollingMean(prices, c.long, i).value;
      && (Signals(prices, c)[i] == -1 <==> s < l)
      && (Signals(prices, c)[i] == 1 <==> !(s < l) && s > l * (1.0 + c.thresh))
  {
  }

  /** `np.diff(signals, prepend=0)[i] != 0`: the signal at `i` differs from
      the one before, with 0 before index 0. */
  predicate Changed(signals: seq<int>, i: nat)
    requires i < |signals|
  {
    signals[i] != if i == 0 then 0 else signals[i - 1]
  }

  /** The indices below `n` where the signal changes, ascending. */
  function ChangesUpTo(signals: seq<int>, n: nat): (r: seq<nat>)
    requires n <= |signals|
    ensures forall k :: 0 <= k < |r| ==> r[k] < n && Changed(signals, r[k])
    ensures forall i :: 0 <= i < n ==> (i in r <==> Changed(signals, i))
    ensures forall j, k :: 0 <= j < k < |r| ==> r[j] < r[k]
  {
    if n == 0 then []
    else ChangesUpTo(signals, n - 1) + (if Changed(signals, n - 1) then [n - 1] else [])
  }

  function ChangeIndices(signals: seq<int>): seq<nat>
  {
    ChangesUpTo(signals, |signals|)
  }

  /** The locals of the fill loop. */
  datatype Sim = Sim(pos: int, cash: real, btc: real, tradeCount: nat)

  const START: Sim := Sim(0, START_CASH, 0.0, 0)

  /** FLAT or LONG one lot, with the trade count's parity matching. */
  predicate Balanced(s: Sim)
  {
    (s.pos == 0 || s.pos == 1) && s.pos == s.tradeCount % 2 && s.btc == LOT * s.pos as real
  }

  /** One change index: BUY on signal 1 when flat and the cash exceeds the
      cost (the fee is not part of the test), SELL on signal -1 when long,
      without looking at the BTC held. */
  function FillStep(s: Sim, sig: int, price: real): (r: Sim)
    ensures r.tradeCount == s.tradeCount + (if r.pos != s.pos then 1 else 0)
    ensures r.pos != s.pos && r.pos == 1 ==> sig == 1 && s.pos == 0 && s.cash > price * LOT
    ensures r.pos != s.pos && r.pos == 0 ==> sig == -1 && s.pos == 1
    ensures r.pos == s.pos ==> r == s
    ensures Balanced(s) ==> Balanced(r)
  {
    if sig == 1 && s.pos == 0 then
      var cost := price * LOT;
      if s.cash > cost then
        Sim(1, s.cash - cost * (1.0 + FEE_RATE), s.btc + LOT, s.tradeCount + 1)
      else s
    else if sig == -1 && s.pos == 1 then
      var rev := price * LOT;
      Sim(0, s.cash + rev * (1.0 - FEE_RATE), s.btc - LOT, s.tradeCount + 1)
    else s
  }

  /** The affordability test ignores the fee, so a BUY can leave the cash
      negative: at a price of 10000 the cost is 10, and a cash of 10.005
      passes the test but pays 10.01. */
  lemma BuyCanOverdraw()
    ensures FillStep(Sim(0, 10.005, 0.0, 0), 1, 10000.0).cash < 0.0
  {
  }

  predicate IndicesIn(idxs: seq<nat>, n: nat)
  {
    forall k :: 0 <= k < |idxs| ==> idxs[k] < n
  }

  /** The fill loop over a sequence of indices. */
  function Fill(s: Sim, signals: seq<int>, prices: seq<real>, idxs: seq<nat>): (r: Sim)
    requires |signals| == |prices| && IndicesIn(idxs, |prices|)
    ensures Balanced(s) ==> Balanced(r)
    ensures s.tradeCount <= r.tradeCount <= s.tradeCount + |idxs|
  {
    if idxs == [] then s
    else
      var n := |idxs| - 1;
      FillStep(Fill(s, signals, prices, idxs[..n]), signals[idxs[n]], prices[idxs[n]])
  }

  /** From the start state the loop keeps `btc == 0.001 * pos`, `pos` in
      {0, 1}, and the trade count counting the flips: its parity is `pos`. */
  lemma FillBalanced(signals: seq<int>, prices: seq<real>, idxs: seq<nat>)
    requires |signals| == |prices| && IndicesIn(idxs, |prices|)
    ensures Balanced(Fill(START, signals, prices, idxs))
  {
  }

  /** One row of the results. */
  datatype SweepResult = SweepResult(short: Window, long: Window, thresh: real, pnl: real, trades: nat)

  /** One combination: signals, change indices, fill loop, and the profit
      at the last price.  An empty price series has no last price; the
      source fails there, the model returns `None`. */
  function Evaluate(prices: seq<real>, c: Combo): (r: Option<SweepResult>)
    ensures r.None? <==> prices == []
    ensures r.Some? ==> r.value.short == c.short && r.value.long == c.long && r.value.thresh == c.thresh
  {
    var signals := Signals(prices, c);
    var sim := Fill(START, signals, prices, ChangeIndices(signals));
    if prices == [] then None
    else Some(SweepResult(c.short, c.long, c.thresh, Pnl(sim, prices[|prices| - 1]), sim.tradeCount))
  }

  /** Cash plus the BTC held at the last price, less the starting cash. */
  function Pnl(sim: Sim, lastPrice: real): real
  {
    sim.cash + sim.btc * lastPrice - START_CASH
  }

  /** The profit is the cash plus the value of the lot held, if any, at the
      last price, less the starting cash; the trade count's parity tells
      whether a lot is held. */
  lemma EvaluatePnl(prices: seq<real>, c: Combo)
    requires prices != []
    ensures var signals := Signals(prices, c);
      var sim := Fill(START, signals, prices, ChangeIndices(signals));
      var r := Evaluate(prices, c).value;
      && r.trades == sim.tradeCount
      && r.pnl == sim.cash + (if r.trades % 2 == 1 then LOT * prices[|prices| - 1] else 0.0) - START_CASH
  {
    var signals := Signals(prices, c);
    var sim := Fill(START, signals, prices, ChangeIndices(signals));
    FillBalanced(signals, prices, ChangeIndices(signals));
    BalancedPnl(sim, prices[|prices| - 1]);
  }

  lemma BalancedPnl(sim: Sim, lastPrice: real)
    requires Balanced(sim)
    ensures Pnl(sim, lastPrice) == sim.cash + (if sim.tradeCount % 2 == 1 then LOT * lastPrice else 0.0) - START_CASH
  {
  }

  /** The combinations the loop does not skip, in their order. */
  function ValidCombos(combos: seq<Combo>): (r: seq<Combo>)
    ensures forall i :: 0 <= i < |r| ==> r[i].short < r[i].long && r[i] in combos
    ensures forall c :: c in combos && c.short < c.long ==> c in r
  {
    if combos == [] then []
    else
      var n := |combos| - 1;
      assert combos == combos[..n] + [combos[n]];
      ValidCombos(combos[..n]) + (if combos[n].short < combos[n].long then [combos[n]] else [])
  }

  /** The results loop before sorting: the result of every combination with
      short < long, in the order of the combinations; no results at all
      when some combination fails on an empty price series. */
  function Collect(prices: seq<real>, combos: seq<Combo>): (r: Option<seq<SweepResult>>)
    ensures r.None? <==> prices == [] && ValidCombos(combos) != []
    ensures r.Some? ==> |r.value| == |ValidCombos(combos)|
    ensures r.Some? ==> forall i :: 0 <= i < |r.value| ==> Evaluate(prices, ValidCombos(combos)[i]) == Some(r.value[i])
    ensures r.Some? ==> forall x :: x in r.value ==> x.short < x.long
  {
    if combos == [] then Some([])
    else
      var n := |combos| - 1;
      var c := combos[n];
      assert ValidCombos(combos) == ValidCombos(combos[..n]) + (if c.short < c.long then [c] else []);
      match Collect(prices, combos[..n])
      case None => None
      case Some(rs) =>
        if c.short >= c.long then Some(rs)
        else match Evaluate(prices, c)
          case None => None
          case Some(x) => Some(rs + [x])
  }

  predicate SortedByPnl(rs: seq<SweepResult>)
  {
    forall j, k :: 0 <= j < k < |rs| ==> rs[j].pnl >= rs[k].pnl
  }

  /** `results.sort(key=pnl, reverse=True)`. */
  function SortByPnl(rs: seq<SweepResult>): (r: seq<SweepResult>)
    ensures SortedByPnl(r)
    ensures multiset(r) == multiset(rs)
  {
    if rs == [] then []
    else
      assert rs == [rs[0]] + rs[1..];
      Insert(rs[0], SortByPnl(rs[1..]))
  }

  /** Put `x` before the first row whose profit it reaches. */
  function Insert(x: SweepResult, s: seq<SweepResult>): (r: seq<SweepResult>)
    requires SortedByPnl(s)
    ensures SortedByPnl(r)
    ensures multiset(r) == multiset(s) + multiset{x}
    ensures |r| == |s| + 1 && (r[0] == x || (s != [] && r[0] == s[0]))
  {
    if s == [] || x.pnl >= s[0].pnl then [x] + s
    else
      var tail := Insert(x, s[1..]);
      assert s == [s[0]] + s[1..];
      [s[0]] + tail
  }

  /** The whole sweep over the search space. */
  function Sweep(prices: seq<real>, combos: seq<Combo>): Option<seq<SweepResult>>
  {
    match Collect(prices, combos)
    case None => None
    case Some(rs) => Some(SortByPnl(rs))
  }

  /** Every combination with short < long has its result among the
      collected rows. */
  lemma CollectCovers(prices: seq<real>, combos: seq<Combo>, c: Combo)
    requires prices != [] && c in combos && c.short < c.long
    ensures Collect(prices, combos).Some? && Evaluate(prices, c).value in Collect(prices, combos).value
  {
    var rs := Collect(prices, combos).value;
    var vs := ValidCombos(combos);
    var i :| 0 <= i < |vs| && vs[i] == c;
    assert Evaluate(prices, vs[i]) == Some(rs[i]);
  }

  /** Every collected row is the result of a combination with
      short < long. */
  lemma CollectOnly(prices: seq<real>, combos: seq<Combo>, x: SweepResult)
    requires prices != [] && x in Collect(prices, combos).value
    ensures exists c :: c in combos && c.short < c.long && Evaluate(prices, c) == Some(x)
  {
    var rs := Collect(prices, combos).value;
    var vs := ValidCombos(combos);
    var i :| 0 <= i < |rs| && rs[i] == x;
    assert vs[i] in combos && vs[i].short < vs[i].long && Evaluate(prices, vs[i]) == Some(x);
  }

  /** The ranked results: a permutation of the collected rows, so the
      result of every combination with short < long and nothing else, in
      non-increasing order of profit. */
  lemma SweepRows(prices: seq<real>, combos: seq<Combo>)
    requires prices != []
    ensures Sweep(prices, combos).Some?
    ensures var rows := Sweep(prices, combos).value;
      && multiset(rows) == multiset(Collect(prices, combos).value)
      && |rows| == |ValidCombos(combos)|
      && SortedByPnl(rows)
      && (forall c :: c in combos && c.short < c.long ==> Evaluate(prices, c).value in rows)
      && (forall x :: x in rows ==> exists c :: c in combos && c.short < c.long && Evaluate(prices, c) == Some(x))
  {
    var rs := Collect(prices, combos).value;
    var rows := SortByPnl(rs);
    assert |rows| == |multiset(rows)| == |multiset(rs)| == |rs|;
    forall c | c in combos && c.short < c.long
      ensures Evaluate(prices, c).value in rows
    {
      CollectCovers(prices, combos, c);
      assert Evaluate(prices, c).value in multiset(rs);
    }
    forall x | x in rows
      ensures exists c :: c in combos && c.short < c.long && Evaluate(prices, c) == Some(x)
    {
      assert x in multiset(rows);
      CollectOnly(prices, combos, x);
    }
  }

  /** The fill loop as the source runs it, over locals. */
  method FillLoop(prices: seq<real>, signals: seq<int>, changeIndices: seq<nat>) returns (sim: Sim)
    requires |signals| == |prices| && IndicesIn(changeIndices, |prices|)
    ensures sim == Fill(START, signals, prices, changeIndices)
  {
    var pos := 0;
    var cash := START_CASH;
    var btc := 0.0;
    var tradeCount: nat := 0;
    var k := 0;
    while k < |changeIndices|
      invariant 0 <= k <= |changeIndices|
      invariant Sim(pos, cash, btc, tradeCount) == Fill(START, signals, prices, changeIndices[..k])
    {
      var idx := changeIndices[k];
      var sig := signals[idx];
      var price := prices[idx];
      assert changeIndices[..k + 1][..k] == changeIndices[..k];
      if sig == 1 && pos == 0 {
        var cost := price * LOT;
        if cash > cost {
          cash := cash - cost * (1.0 + FEE_RATE);
          btc := btc + LOT;
          pos := 1;
          tradeCount := tradeCount + 1;
        }
      } else if sig == -1 && pos == 1 {
        var rev := price * LOT;
        cash := cash + rev * (1.0 - FEE_RATE);
        btc := btc - LOT;
        pos := 0;
        tradeCount := tradeCount + 1;
      }
      k := k + 1;
    }
    assert changeIndices[..k] == changeIndices;
    sim := Sim(pos, cash, btc, tradeCount);
  }

  /** The body of the sweep loop for one valid combination. */
  method EvaluateCombo(prices: seq<real>, c: Combo) returns (r: Option<SweepResult>)
    ensures r == Evaluate(prices, c)
  {
    var signals := Signals(prices, c);
    var changeIndices := ChangeIndices(signals);
    var sim := FillLoop(prices, signals, changeIndices);
    if prices == [] {
      return None;
    }
    var pnl := Pnl(sim, prices[|prices| - 1]);
    r := Some(SweepResult(c.short, c.long, c.thresh, pnl, sim.tradeCount));
  }

  /** `optimize()` over a price series: skip combinations with short >= long,
      collect one row per remaining one, then sort by profit. */
  method RunSweep(prices: seq<real>, combos: seq<Combo>) returns (results: Option<seq<SweepResult>>)
    ensures results == Sweep(prices, combos)
  {
    var rows: seq<SweepResult> := [];
    var i := 0;
    while i < |combos|
      invariant 0 <= i <= |combos|
      invariant Collect(prices, combos[..i]) == Some(rows)
    {
      var c := combos[i];
      assert combos[..i + 1][..i] == combos[..i];
      if c.short >= c.long {
        i := i + 1;
        continue;
      }
      var r := EvaluateCombo(prices, c);
      if r.None? {
        assert c in combos && prices == [];
        return None;
      }
      rows := rows + [r.value];
      i := i + 1;
    }
    assert combos[..i] == combos;
    results := Some(SortByPnl(rows));
  }
}
