/** The tick recorder: it polls the shared market record and appends one CSV
    row for every new, non-zero timestamp, with the spread and the order-flow
    imbalance derived on the spot. */
module Recorder {
  import opened Common
  import opened Schema

  /** The CSV header, in the order every row is written. */
  const FIELD_NAMES: seq<string> := ["local_time", "bid_price", "bid_qty", "ask_price", "ask_qty", "spread", "ofi"]

  datatype Row = Row(localTime: U64, bidPrice: real, bidQty: real, askPrice: real,
                     askQty: real, spread: real, ofi: real)
  {
    /** The row's cells in header order. */
    function Cells(): (r: seq<real>)
      ensures |r| == |FIELD_NAMES|
    {
      [localTime as real, bidPrice, bidQty, askPrice, askQty, spread, ofi]
    }

    /** The value of the column named `name`. */
    function Column(name: string): Option<real>
    {
      if name == "local_time" then Some(localTime as real)
      else if name == "bid_price" then Some(bidPrice)
      else if name == "bid_qty" then Some(bidQty)
      else if name == "ask_price" then Some(askPrice)
      else if name == "ask_qty" then Some(askQty)
      else if name == "spread" then Some(spread)
      else if name == "ofi" then Some(ofi)
      else None
    }
  }

  /** Every cell sits under its own header name. */
  lemma ColumnOrder(row: Row)
    ensures forall i :: 0 <= i < |FIELD_NAMES| ==> row.Column(FIELD_NAMES[i]) == Some(row.Cells()[i])
  {
  }

  /** The row for a market snapshot. */
  function MakeRow(m: MarketState<real>): (r: Row)
    ensures r.localTime == m.localTimeMs
    ensures r.bidPrice == m.bidPrice && r.bidQty == m.bidQty
    ensures r.askPrice == m.askPrice && r.askQty == m.askQty
    ensures r.spread == m.askPrice - m.bidPrice
    ensures m.bidQty + m.askQty > 0.0 ==> r.ofi * (m.bidQty + m.askQty) == m.bidQty - m.askQty
    ensures m.bidQty + m.askQty <= 0.0 ==> r.ofi == 0.0
  {
    Row(m.localTimeMs, m.bidPrice, m.bidQty, m.askPrice, m.askQty,
        m.askPrice - m.bidPrice, Ofi(m.bidQty, m.askQty))
  }

  /** The loop's counters and the rows written so far. */
  datatype RecState = RecState(lastTime: U64, tickCount: nat, rows: seq<Row>)

  const START: RecState := RecState(0, 0, [])

  /** One poll: a row for a timestamp that differs from the last one and is
      not zero, and nothing otherwise. */
  function Poll(s: RecState, m: MarketState<real>): (r: RecState)
  {
    var t := m.localTimeMs;
    if t != s.lastTime && t != 0 then RecState(t, s.tickCount + 1, s.rows + [MakeRow(m)])
    else s
  }

  /** A row is written exactly for a new, non-zero timestamp; it then
      becomes the last timestamp and the counter goes up by one, and
      without a row neither changes. */
  lemma PollRule(s: RecState, m: MarketState<real>)
    ensures var r := Poll(s, m);
      var isNew := m.localTimeMs != s.lastTime && m.localTimeMs != 0;
      && (isNew ==> r.rows == s.rows + [MakeRow(m)] && r.lastTime == m.localTimeMs && r.tickCount == s.tickCount + 1)
      && (!isNew ==> r == s)
  {
  }

  /** Row `i` carries a different timestamp from row `i - 1`. */
  predicate NewTick(rows: seq<Row>, i: int)
    requires 0 < i < |rows|
  {
    rows[i].localTime != rows[i - 1].localTime
  }

  /** What the loop keeps: one count per row, the last row's timestamp is
      the last timestamp, no row has timestamp 0 and no two neighbouring
      rows share one. */
  predicate Good(s: RecState)
  {
    && s.tickCount == |s.rows|
    && (s.rows == [] ==> s.lastTime == 0)
    && (s.rows != [] ==> s.rows[|s.rows| - 1].localTime == s.lastTime)
    && (forall i :: 0 <= i < |s.rows| ==> s.rows[i].localTime != 0)
    && (forall i :: 0 < i < |s.rows| ==> NewTick(s.rows, i))
  }

  lemma PollGood(s: RecState, m: MarketState<real>)
    requires Good(s)
    ensures Good(Poll(s, m))
  {
    var r := Poll(s, m);
    if r != s {
      forall i | 0 < i < |r.rows|
        ensures NewTick(r.rows, i)
      {
        if i < |s.rows| {
          assert NewTick(s.rows, i);
        }
      }
    }
  }

  /** The polls over a sequence of snapshots. */
  function Record(s: RecState, snapshots: seq<MarketState<real>>): RecState
  {
    if snapshots == [] then s
    else Poll(Record(s, snapshots[..|snapshots| - 1]), snapshots[|snapshots| - 1])
  }

  /** Any run of polls from the start keeps `Good`, and writes at most one
      row per snapshot. */
  lemma {:induction false} RecordGood(snapshots: seq<MarketState<real>>)
    ensures Good(Record(START, snapshots))
    ensures |Record(START, snapshots).rows| <= |snapshots|
  {
    if snapshots != [] {
      var init := snapshots[..|snapshots| - 1];
      RecordGood(init);
      PollGood(Record(START, init), snapshots[|snapshots| - 1]);
    }
  }

  /** The recorder over an attached shared record. */
  class TickRecorder {
    const shm: SharedMemory
    var lastTime: U64
    var tickCount: nat
    var rows: seq<Row>

    function State(): RecState
      reads this
    {
      RecState(lastTime, tickCount, rows)
    }

    constructor (shm: SharedMemory)
      ensures this.shm == shm && State() == START
    {
      this.shm := shm;
      lastTime := 0;
      tickCount := 0;
      rows := [];
    }

    /** One pass of the recording loop. */
    method PollOnce()
      modifies this
      ensures State() == Poll(old(State()), shm.market)
    {
      var currentTime := shm.market.localTimeMs;
      if currentTime != lastTime && currentTime != 0 {
        var spread := shm.market.askPrice - shm.market.bidPrice;
        var totalQty := shm.market.bidQty + shm.market.askQty;
        var ofi := if totalQty > 0.0 then (shm.market.bidQty - shm.market.askQty) / totalQty else 0.0;
        rows := rows + [Row(currentTime, shm.market.bidPrice, shm.market.bidQty,
                            shm.market.askPrice, shm.market.askQty, spread, ofi)];
        lastTime := currentTime;
        tickCount := tickCount + 1;
      }
    }
  }
}
