/** The liquidity reset tool: it reads the BTC balance once, asks for a
    confirmation, and then writes one SELL command of one lot per lot held,
    counting a local copy of the balance down; the shared balance is never
    read again. */
module ManualReset {
  import opened Schema

  const LOT: real := 0.001

  /** The number of lots the loop sells from a local balance `btc`: it
      stops as soon as less than one lot is left. */
  function Lots(btc: real): (n: nat)
    decreases if btc < LOT then 0 else (btc * 1000.0).Floor
  {
    if btc < LOT then 0 else 1 + Lots(btc - LOT)
  }

  /** With exact arithmetic the count is the balance in lots, rounded
      down, and the balance left over is below one lot. */
  lemma {:induction false} LotsIsFloor(btc: real)
    requires btc >= 0.0
    ensures Lots(btc) == (btc * 1000.0).Floor
    ensures 0.0 <= btc - Lots(btc) as real * LOT < LOT
    decreases (btc * 1000.0).Floor
  {
    if btc >= LOT {
      LotsIsFloor(btc - LOT);
      FloorShift(btc * 1000.0);
    }
  }

  /** Taking one from a real takes one from its floor. */
  lemma FloorShift(x: real)
    ensures (x - 1.0).Floor == x.Floor - 1
  {
  }

  /** ASCII lower-casing of the confirmation answer. */
  function Lower(s: string): (r: string)
    ensures |r| == |s|
    ensures forall i :: 0 <= i < |s| ==> r[i] == (if 'A' <= s[i] <= 'Z' then (s[i] as int + 32) as char else s[i])
  {
    if s == [] then []
    else Lower(s[..|s| - 1]) + [if 'A' <= s[|s| - 1] <= 'Z' then (s[|s| - 1] as int + 32) as char else s[|s| - 1]]
  }

  /** The answer confirms exactly when it is a single `y` or `Y`. */
  lemma ConfirmRule(confirm: string)
    ensures Lower(confirm) == "y" <==> confirm == "y" || confirm == "Y"
  {
    if Lower(confirm) == "y" {
      assert |confirm| == 1;
      assert Lower(confirm)[0] == 'y';
    }
  }

  /** The command record after `n` SELL commands. */
  function Sent(cmd: StrategyCommand<real>, n: nat): (r: StrategyCommand<real>)
    ensures n == 0 ==> r == cmd
    ensures n > 0 ==> r.action == 2 && r.quantity == LOT && r.price == cmd.price
  {
    if n == 0 then cmd
    else Sent(cmd, n - 1).(action := 2, quantity := LOT, commandId := NextId(Sent(cmd, n - 1).commandId))
  }

  /** Each SELL bumps the id by one, wrapping at 2^64. */
  lemma {:induction false} SentIds(cmd: StrategyCommand<real>, n: nat)
    ensures Sent(cmd, n).commandId == Bumped(cmd.commandId, n)
    ensures Sent(cmd, n).commandId == (cmd.commandId + n) % TWO64
  {
    if n > 0 {
      SentIds(cmd, n - 1);
    }
    BumpedIsSum(cmd.commandId, n);
  }

  /** The whole tool: the number of SELL commands for a balance and an
      answer, nothing below one lot and nothing without a confirmation. */
  function Sells(btc: real, confirm: string): nat
  {
    if btc < LOT then 0
    else if Lower(confirm) != "y" then 0
    else Lots(btc)
  }

  /** No command is written for a balance below one lot or without a `y`;
      otherwise one per whole lot, each moving the id on by one. */
  lemma SellsRule(btc: real, confirm: string, cmd: StrategyCommand<real>)
    ensures btc < LOT || (confirm != "y" && confirm != "Y") ==> Sells(btc, confirm) == 0
    ensures btc >= LOT && (confirm == "y" || confirm == "Y") ==>
      Sells(btc, confirm) == (btc * 1000.0).Floor && Sells(btc, confirm) >= 1
    ensures var r := Sent(cmd, Sells(btc, confirm));
      && r.commandId == (cmd.commandId + Sells(btc, confirm)) % TWO64
      && (Sells(btc, confirm) > 0 ==> r.action == 2 && r.quantity == LOT)
  {
    ConfirmRule(confirm);
    if btc >= LOT {
      LotsIsFloor(btc);
    }
    SentIds(cmd, Sells(btc, confirm));
  }

  /** The decide-and-dump block over the attached shared record: the
      balance is read once at the start and `confirm` is the operator's
      answer. */
  method Dump(shm: SharedMemory, confirm: string) returns (sells: nat, remaining: real)
    modifies shm
    ensures shm.market == old(shm.market)
    ensures sells == Sells(old(shm.market.realBtcBalance), confirm)
    ensures shm.command == Sent(old(shm.command), sells)
    ensures sells > 0 ==> remaining < LOT
    ensures remaining == old(shm.market.realBtcBalance) - sells as real * LOT
  {
    var btc := shm.market.realBtcBalance;
    sells := 0;
    remaining := btc;
    if btc < 0.001 {
      return;
    }
    if Lower(confirm) == "y" {
      ghost var btc0 := btc;
      ghost var cmd0 := shm.command;
      while btc >= 0.001
        invariant btc == btc0 - sells as real * LOT
        invariant sells + Lots(btc) == Lots(btc0)
        invariant shm.command == Sent(cmd0, sells)
        invariant shm.market == old(shm.market)
        decreases if btc < LOT then 0 else (btc * 1000.0).Floor
      {
        shm.command := shm.command.(action := 2);
        shm.command := shm.command.(quantity := 0.001);
        shm.command := shm.command.(commandId := NextId(shm.command.commandId));
        btc := btc - 0.001;
        sells := sells + 1;
      }
      remaining := btc;
    }
  }
}
