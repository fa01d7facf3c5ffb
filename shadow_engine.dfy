/** The C++ engine's shadow execution: a key-pattern extractor for the
    exchange's JSON text, and one poll of the execution loop, which picks
    up a new strategy command by its strictly increasing id, fills a
    pending order against the current quotes (a BUY at the ask, a SELL at
    the bid) and settles it in the virtual wallet when the wallet can
    afford it. */
module ShadowEngine {
  import opened Common
  import opened Schema

  const SIM_FEE_RATE: real := 0.00075
  const SIM_START_CASH: real := 10000.0

  // ---------------------------------------------------------------------
  // get_json_value

  predicate OccursAt(s: string, pat: string, j: nat)
  {
    j + |pat| <= |s| && s[j..j + |pat|] == pat
  }

  /** `std::string::find(pat, from)`: the first occurrence at or after
      `from`, or `None` for `npos`. */
  function Find(s: string, pat: string, from: nat): (r: Option<nat>)
    requires from <= |s|
    ensures r.Some? ==> from <= r.value && OccursAt(s, pat, r.value)
    ensures forall j :: from <= j && (r.None? || j < r.value) ==> !OccursAt(s, pat, j)
    decreases |s| - from
  {
    if from + |pat| > |s| then None
    else if s[from..from + |pat|] == pat then Some(from)
    else Find(s, pat, from + 1)
  }

  /** The text `"key":"` the extractor searches for. */
  function KeyPattern(key: string): string
  {
    "\"" + key + "\":\""
  }

  /** Where the value text ends: at the next double quote at or after
      `start`, or at the end of the message when there is none. */
  function ValueEnd(json: string, start: nat): (stop: nat)
    requires start <= |json|
    ensures start <= stop <= |json| && '"' !in json[start..stop]
    ensures stop == |json| || json[stop] == '"'
  {
    var stop := match Find(json, "\"", start) case None => |json| case Some(e) => e;
    NoQuoteBefore(json, start, stop);
    stop
  }

  /** A parse failure counts as 0.0. */
  function OrZero(v: Option<real>): real
  {
    match v
    case Some(x) => x
    case None => 0.0
  }

  /** `get_json_value`: 0.0 when the key pattern is missing; otherwise the
      text from just after its first occurrence up to the next double quote
      (or the end of the message) is handed to the number parser, and a
      parse failure yields 0.0.  The parser is a parameter. */
  function GetJsonValue(json: string, key: string, parse: string -> Option<real>): (r: real)
    ensures Find(json, KeyPattern(key), 0).None? ==> r == 0.0
    ensures Find(json, KeyPattern(key), 0).Some? ==>
      var start := Find(json, KeyPattern(key), 0).value + |KeyPattern(key)|;
      r == OrZero(parse(json[start..ValueEnd(json, start)]))
  {
    var search := KeyPattern(key);
    match Find(json, search, 0)
    case None => 0.0
    case Some(i) =>
      var start := i + |search|;
      var stop := match Find(json, "\"", start) case None => |json| case Some(e) => e;
      match parse(json[start..stop])
      case Some(v) => v
      case None => 0.0
  }

  /** The text between `start` and the next quote holds no quote. */
  lemma NoQuoteBefore(json: string, start: nat, stop: nat)
    requires start <= |json|
    requires stop == match Find(json, "\"", start) case None => |json| case Some(e) => e
    ensures start <= stop <= |json| && '"' !in json[start..stop]
    ensures stop == |json| || json[stop] == '"'
  {
    var pat: string := "\"";
    forall k | start <= k < stop
      ensures json[k] != '"'
    {
      assert !OccursAt(json, pat, k);
      assert json[k..k + 1] == [json[k]];
    }
    if stop < |json| {
      assert OccursAt(json, pat, stop);
      assert json[stop..stop + 1] == [json[stop]];
    }
  }

  /** One `"key":"value"` member. */
  function Member(key: string, text: string): string
  {
    KeyPattern(key) + text + "\""
  }

  /** Round trip: a message that starts with the member for `key` yields
      the parse of that member's text, whatever follows. */
  lemma {:induction false} MemberRoundTrip(key: string, text: string, rest: string, parse: string -> Option<real>)
    requires '"' !in text
    ensures GetJsonValue(Member(key, text) + rest, key, parse)
            == OrZero(parse(text))
  {
    var json := Member(key, text) + rest;
    var search := KeyPattern(key);
    assert json[0..|search|] == search;
    var start := |search|;
    var stop := start + |text|;
    assert json[stop] == '"';
    FindQuote(json, start, stop);
    assert json[start..stop] == text;
  }

  /** The first quote at or after `from` is at `e` when there is none
      before it. */
  lemma {:induction false} FindQuote(s: string, from: nat, e: nat)
    requires from <= e < |s| && s[e] == '"'
    requires forall k :: from <= k < e ==> s[k] != '"'
    ensures Find(s, "\"", from) == Some(e)
    decreases e - from
  {
    var pat: string := "\"";
    assert s[from..from + 1] == [s[from]];
    if from < e {
      FindQuote(s, from + 1, e);
    }
  }

  // ---------------------------------------------------------------------
  // execution_loop

  datatype Wallet = Wallet(usdt: real, btc: real)

  /** The loop's locals for the order being worked: action 0 means none. */
  datatype Pending = Pending(action: int, price: real, qty: real)

  datatype ExecState = ExecState(wallet: Wallet, lastCmdId: U64, pending: Pending)

  /** Pick up the command record when its id is above the last one seen:
      it replaces whatever order was pending. */
  function Pickup(s: ExecState, cmd: StrategyCommand<real>): (r: ExecState)
    ensures r.wallet == s.wallet
    ensures cmd.commandId > s.lastCmdId ==>
      r.lastCmdId == cmd.commandId && r.pending == Pending(cmd.action, cmd.price, cmd.quantity)
    ensures cmd.commandId <= s.lastCmdId ==> r == s
    ensures r.lastCmdId >= s.lastCmdId
  {
    if cmd.commandId > s.lastCmdId then
      s.(lastCmdId := cmd.commandId, pending := Pending(cmd.action, cmd.price, cmd.quantity))
    else s
  }

  /** The marketable fill rule, with the source's second branches, which
      no input reaches: a BUY fills at the ask exactly when it is a market
      order (price 0) or priced at or above the ask; a SELL fills at the
      bid exactly when it is a market order or priced at or below the
      bid.  Any other action never fills. */
  function FillPrice(p: Pending, bid: real, ask: real): (r: Option<real>)
    ensures r.Some? <==>
      ((p.action == 1 && (p.price == 0.0 || p.price >= ask)) || (p.action == 2 && (p.price == 0.0 || p.price <= bid)))
    ensures r.Some? && p.action == 1 ==> r.value == ask
    ensures r.Some? && p.action == 2 ==> r.value == bid
  {
    if p.action == 1 then
      if p.price == 0.0 || p.price >= ask then Some(ask)
      else if ask <= p.price then Some(p.price)
      else None
    else if p.action == 2 then
      if p.price == 0.0 || p.price <= bid then Some(bid)
      else if bid >= p.price then Some(p.price)
      else None
    else None
  }

  /** The guarded wallet update for a fill. */
  function Settle(w: Wallet, p: Pending, fillPrice: real): (r: Wallet)
    ensures p.action == 1 && w.usdt >= fillPrice * p.qty * (1.0 + SIM_FEE_RATE) ==>
      r == Wallet(w.usdt - fillPrice * p.qty * (1.0 + SIM_FEE_RATE), w.btc + p.qty)
    ensures p.action == 2 && w.btc >= p.qty ==>
      r == Wallet(w.usdt + fillPrice * p.qty * (1.0 - SIM_FEE_RATE), w.btc - p.qty)
    ensures (!(p.action == 1 && w.usdt >= fillPrice * p.qty * (1.0 + SIM_FEE_RATE))
             && !(p.action == 2 && w.btc >= p.qty)) ==> r == w
  {
    var cost := fillPrice * p.qty;
    var fee := cost * SIM_FEE_RATE;
    if p.action == 1 && w.usdt >= cost + fee then
      Wallet(w.usdt - (cost + fee), w.btc + p.qty)
    else if p.action == 2 && w.btc >= p.qty then
      Wallet(w.usdt + (cost - fee), w.btc - p.qty)
    else w
  }

  /** One pass of the loop over the shared record: pickup, then try to
      fill the pending order against the current quotes; after a fill the
      pending action is cleared, whether or not the wallet took the trade. */
  function Poll(s: ExecState, market: MarketState<real>, cmd: StrategyCommand<real>): (r: ExecState)
    ensures r.lastCmdId == Pickup(s, cmd).lastCmdId
  {
    var s1 := Pickup(s, cmd);
    if s1.pending.action == 0 then s1
    else
      match FillPrice(s1.pending, market.bidPrice, market.askPrice)
      case None => s1
      case Some(fp) =>
        s1.(wallet := Settle(s1.wallet, s1.pending, fp), pending := s1.pending.(action := 0))
  }

  /** An order that cannot fill stays pending unchanged and the wallet is
      untouched; a filled one is cleared. */
  lemma PollPending(s: ExecState, market: MarketState<real>, cmd: StrategyCommand<real>)
    ensures var p := Pickup(s, cmd).pending;
      var r := Poll(s, market, cmd);
      && (FillPrice(p, market.bidPrice, market.askPrice).None? ==> r == Pickup(s, cmd))
      && (FillPrice(p, market.bidPrice, market.askPrice).Some? ==>
            r.pending == p.(action := 0)
            && r.wallet == Settle(s.wallet, p, FillPrice(p, market.bidPrice, market.askPrice).value))
  {
  }

  /** A command whose id is not above the last one seen is never picked up
      again: the pass only works the order already pending. */
  lemma StaleCommandIgnored(s: ExecState, market: MarketState<real>, cmd: StrategyCommand<real>, other: StrategyCommand<real>)
    requires cmd.commandId <= s.lastCmdId && other.commandId <= s.lastCmdId
    ensures Poll(s, market, cmd) == Poll(s, market, other)
  {
  }

  predicate NonNegative(w: Wallet)
  {
    w.usdt >= 0.0 && w.btc >= 0.0
  }

  /** With non-negative quotes and quantities, a poll never makes usdt or
      BTC negative. */
  lemma PollNonNegative(s: ExecState, market: MarketState<real>, cmd: StrategyCommand<real>)
    requires NonNegative(s.wallet) && s.pending.qty >= 0.0 && cmd.quantity >= 0.0
    requires market.bidPrice >= 0.0 && market.askPrice >= 0.0
    ensures NonNegative(Poll(s, market, cmd).wallet)
    ensures Poll(s, market, cmd).pending.qty >= 0.0
  {
    var s1 := Pickup(s, cmd);
    var p := s1.pending;
    var fp := FillPrice(p, market.bidPrice, market.askPrice);
    if p.action != 0 && fp.Some? {
      SettleNonNegative(s1.wallet, p, fp.value);
    }
  }

  lemma SettleNonNegative(w: Wallet, p: Pending, fillPrice: real)
    requires NonNegative(w) && p.qty >= 0.0 && fillPrice >= 0.0
    ensures NonNegative(Settle(w, p, fillPrice))
  {
    var cost := fillPrice * p.qty;
    assert cost >= 0.0 by {
      if p.qty > 0.0 {
        assert fillPrice * p.qty >= 0.0 * p.qty;
      }
    }
    assert cost - cost * SIM_FEE_RATE >= 0.0;
  }

  /** A sequence of polls over successive snapshots of the shared record. */
  function PollAll(s: ExecState, snaps: seq<(MarketState<real>, StrategyCommand<real>)>): (r: ExecState)
    ensures r.lastCmdId >= s.lastCmdId
  {
    if snaps == [] then s
    else
      var n := |snaps| - 1;
      Poll(PollAll(s, snaps[..n]), snaps[n].0, snaps[n].1)
  }

  /** Over any run with non-negative quotes and quantities, the wallet stays
      non-negative. */
  lemma {:induction false} PollAllNonNegative(s: ExecState, snaps: seq<(MarketState<real>, StrategyCommand<real>)>)
    requires NonNegative(s.wallet) && s.pending.qty >= 0.0
    requires forall k :: 0 <= k < |snaps| ==>
      snaps[k].0.bidPrice >= 0.0 && snaps[k].0.askPrice >= 0.0 && snaps[k].1.quantity >= 0.0
    ensures NonNegative(PollAll(s, snaps).wallet) && PollAll(s, snaps).pending.qty >= 0.0
  {
    if snaps != [] {
      var n := |snaps| - 1;
      PollAllNonNegative(s, snaps[..n]);
      PollNonNegative(PollAll(s, snaps[..n]), snaps[n].0, snaps[n].1);
    }
  }

  /** The global `sim_wallet`. */
  class VirtualWallet {
    var usdt: real
    var btc: real

    constructor ()
      ensures usdt == SIM_START_CASH && btc == 0.0
    {
      usdt := SIM_START_CASH;
      btc := 0.0;
    }
  }

  /** The state of `execution_loop`: its locals, over the shared wallet. */
  class ExecutionLoop {
    const wallet: VirtualWallet
    var lastCmdId: U64
    var pendingAction: int
    var pendingPrice: real
    var pendingQty: real

    function State(): ExecState
      reads this, wallet
    {
      ExecState(Wallet(wallet.usdt, wallet.btc), lastCmdId, Pending(pendingAction, pendingPrice, pendingQty))
    }

    /** The loop starts from the id already in the record, with nothing
        pending. */
    constructor (layout: SharedMemory, wallet: VirtualWallet)
      ensures this.wallet == wallet
      ensures lastCmdId == layout.command.commandId
      ensures pendingAction == 0 && pendingPrice == 0.0 && pendingQty == 0.0
    {
      this.wallet := wallet;
      lastCmdId := layout.command.commandId;
      pendingAction := 0;
      pendingPrice := 0.0;
      pendingQty := 0.0;
    }

    /** One iteration of the `while(true)` body. */
    method PollOnce(layout: SharedMemory)
      modifies this, wallet
      ensures State() == Poll(old(State()), layout.market, layout.command)
    {
      if layout.command.commandId > lastCmdId {
        lastCmdId := layout.command.commandId;
        pendingAction := layout.command.action;
        pendingQty := layout.command.quantity;
        pendingPrice := layout.command.price;
      }
      assert State() == Pickup(old(State()), layout.command);

      if pendingAction != 0 {
        var mktBid := layout.market.bidPrice;
        var mktAsk := layout.market.askPrice;
        var filled := false;
        var fillPrice := 0.0;

        if pendingAction == 1 {
          if pendingPrice == 0.0 || pendingPrice >= mktAsk {
            fillPrice := mktAsk;
            filled := true;
          } else if mktAsk <= pendingPrice {
            fillPrice := pendingPrice;
            filled := true;
          }
        } else if pendingAction == 2 {
          if pendingPrice == 0.0 || pendingPrice <= mktBid {
            fillPrice := mktBid;
            filled := true;
          } else if mktBid >= pendingPrice {
            fillPrice := pendingPrice;
            filled := true;
          }
        }
        assert filled <==> FillPrice(Pending(pendingAction, pendingPrice, pendingQty), mktBid, mktAsk).Some?;

        if filled {
          SettleFill(fillPrice);
          pendingAction := 0;
        }
      }
    }

    /** The wallet update of a fill. */
    method SettleFill(fillPrice: real)
      modifies wallet
      ensures Wallet(wallet.usdt, wallet.btc)
           == Settle(old(Wallet(wallet.usdt, wallet.btc)), Pending(pendingAction, pendingPrice, pendingQty), fillPrice)
    {
      var cost := fillPrice * pendingQty;
      var fee := cost * SIM_FEE_RATE;
      if pendingAction == 1 && wallet.usdt >= cost + fee {
        wallet.usdt := wallet.usdt - (cost + fee);
        wallet.btc := wallet.btc + pendingQty;
      } else if pendingAction == 2 && wallet.btc >= pendingQty {
        wallet.btc := wallet.btc - pendingQty;
        wallet.usdt := wallet.usdt + (cost - fee);
      }
    }
  }
}
