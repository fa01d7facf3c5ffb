/** Small value types shared by every part of the model. */
module Common {

  datatype Option<+T> = None | Some(value: T)

  /** The trade actions the strategies emit; `Code` is the integer the
      source uses (0 = no trade, 1 = BUY, 2 = SELL), which is also the
      value written into the shared command record. */
  datatype Action = Hold | Buy | Sell {
    function Code(): (c: int)
      ensures 0 <= c <= 2
      ensures (c == 0) == Hold? && (c == 1) == Buy? && (c == 2) == Sell?
    {
      match this
      case Hold => 0
      case Buy => 1
      case Sell => 2
    }
  }

  /** FLAT (0) or LONG (1), the position flag of the trend strategies. */
  datatype Position = Flat | Long

  /** Order-flow imbalance, as computed by the recorder and by the hybrid
      controller: (bid_qty - ask_qty) / total, and 0 when the total is not
      positive. */
  function Ofi(bidQty: real, askQty: real): (r: real)
    ensures bidQty + askQty > 0.0 ==> r * (bidQty + askQty) == bidQty - askQty
    ensures bidQty + askQty <= 0.0 ==> r == 0.0
    ensures bidQty >= 0.0 && askQty >= 0.0 ==> -1.0 <= r <= 1.0
  {
    var total := bidQty + askQty;
    if total > 0.0 then (bidQty - askQty) / total else 0.0
  }
}
