/** The record shared by the trading processes and the execution engine: the
    market block (engine to strategy), the command block (strategy to engine)
    and the master layout holding one of each, declared identically in the
    Python (ctypes) and C++ headers.  The records are generic in how a double
    is represented: the strategies read them as exact reals, the byte layout
    stores a double's 64-bit IEEE-754 bit pattern.  Offsets follow natural C
    alignment on the System V AMD64 ABI (every scalar aligned to its size, a
    struct to its largest member, its size rounded up to that alignment). */
module Schema {

  const SHM_NAME: string := "/hydra_shm"
  const SHM_SIZE: nat := 4096

  const TWO32: int := 0x1_0000_0000
  const TWO64: int := 0x1_0000_0000_0000_0000

  type U64 = x: int | 0 <= x < 0x1_0000_0000_0000_0000
  type I32 = x: int | -0x8000_0000 <= x < 0x8000_0000
  type Byte = x: int | 0 <= x < 256

  datatype MarketState<F> = MarketState(
    localTimeMs: U64,
    bidPrice: F,
    bidQty: F,
    askPrice: F,
    askQty: F,
    realUsdtBalance: F,
    realBtcBalance: F,
    systemReady: bool)

  /** `action` is 1 = BUY, 2 = SELL; the engine reads 0 as "no order". */
  datatype StrategyCommand<F> = StrategyCommand(commandId: U64, action: I32, quantity: F, price: F)

  datatype SharedMemoryLayout<F> = SharedMemoryLayout(market: MarketState<F>, command: StrategyCommand<F>)

  /** The mapped segment as the processes see it: one object whose two
      blocks are updated in place, the market block by the engine and the
      command block by a strategy.  Values are held as reals here; the byte
      image of the same record is `Encode` below. */
  class SharedMemory {
    var market: MarketState<real>
    var command: StrategyCommand<real>

    constructor (market: MarketState<real>, command: StrategyCommand<real>)
      ensures this.market == market && this.command == command
    {
      this.market := market;
      this.command := command;
    }
  }

  /** `command_id += 1` on a 64-bit unsigned field: one more, wrapping to 0. */
  function NextId(id: U64): (r: U64)
    ensures id < TWO64 - 1 ==> r == id + 1
    ensures id == TWO64 - 1 ==> r == 0
  {
    (id + 1) % TWO64
  }

  lemma {:induction false} ModShift(x: nat, q: nat, a: nat)
    requires a > 0
    ensures (x + q * a) % a == x % a
    decreases q
  {
    if q > 0 {
      ModShift(x, q - 1, a);
      ModAdd(x + (q - 1) * a, a);
      assert x + (q - 1) * a + a == x + q * a;
    }
  }

  /** The id after `k` bumps. */
  function Bumped(id: U64, k: nat): U64
  {
    if k == 0 then id else NextId(Bumped(id, k - 1))
  }

  /** `k` bumps add `k` modulo 2^64. */
  lemma {:induction false} BumpedIsSum(id: U64, k: nat)
    ensures Bumped(id, k) == (id + k) % TWO64
  {
    if k > 0 {
      BumpedIsSum(id, k - 1);
      IdsAdvance(id, k - 1);
    }
  }

  /** Bumping an id that has already been bumped `k` times from `id` gives
      the id bumped `k + 1` times: the counter is `id + k` modulo 2^64. */
  lemma IdsAdvance(id: U64, k: nat)
    ensures NextId((id + k) % TWO64) == (id + k + 1) % TWO64
  {
    var x := id + k;
    ModShift(x % TWO64 + 1, x / TWO64, TWO64);
    assert x % TWO64 + 1 + (x / TWO64) * TWO64 == x + 1;
  }

  // ---------------------------------------------------------------------
  // Field types and natural alignment

  datatype CType = U64T | F64T | I32T | BoolT

  function SizeOf(t: CType): nat
  {
    match t
    case U64T => 8
    case F64T => 8
    case I32T => 4
    case BoolT => 1
  }

  /** Scalars are aligned to their own size on System V AMD64. */
  function AlignOf(t: CType): (a: nat)
    ensures a > 0 && a == SizeOf(t)
  {
    SizeOf(t)
  }

  /** The two struct declarations, in declaration order. */
  const MarketFields: seq<CType> := [U64T, F64T, F64T, F64T, F64T, F64T, F64T, BoolT]
  const CommandFields: seq<CType> := [U64T, I32T, F64T, F64T]

  function AlignUp(n: nat, a: nat): (r: nat)
    requires a > 0
    ensures r % a == 0 && n <= r < n + a
  {
    if n % a == 0 then n
    else
      MultipleMod(n / a + 1, a);
      (n / a + 1) * a
  }

  lemma {:induction false} MulAtLeast(a: nat, d: int)
    requires d >= 1
    ensures a * d >= a
    decreases d
  {
    if d > 1 {
      MulAtLeast(a, d - 1);
      assert a * d == a * (d - 1) + a;
    }
  }

  lemma ModAdd(x: nat, a: nat)
    requires a > 0
    ensures (x + a) % a == x % a
  {
    var q, r := x / a, x % a;
    var q2, r2 := (x + a) / a, (x + a) % a;
    var d := q2 - q - 1;
    assert a * d == r - r2;
    if d >= 1 {
      MulAtLeast(a, d);
    } else if d <= -1 {
      MulAtLeast(a, -d);
    }
  }

  lemma {:induction false} MultipleMod(k: nat, a: nat)
    requires a > 0
    ensures (k * a) % a == 0
  {
    if k > 0 {
      MultipleMod(k - 1, a);
      ModAdd((k - 1) * a, a);
      assert (k - 1) * a + a == k * a;
    }
  }

  /** One past the last byte used by `fields` laid out from offset 0. */
  function EndOf(fields: seq<CType>): nat
  {
    if fields == [] then 0
    else
      var last := fields[|fields| - 1];
      AlignUp(EndOf(fields[..|fields| - 1]), AlignOf(last)) + SizeOf(last)
  }

  /** The offset of field `i`: the end of the fields before it, aligned. */
  function Offset(fields: seq<CType>, i: nat): nat
    requires i < |fields|
  {
    AlignUp(EndOf(fields[..i]), AlignOf(fields[i]))
  }

  function StructAlign(fields: seq<CType>): (a: nat)
    ensures a > 0
    ensures forall i :: 0 <= i < |fields| ==> AlignOf(fields[i]) <= a
  {
    if fields == [] then 1
    else
      var rest := StructAlign(fields[1..]);
      assert forall i :: 1 <= i < |fields| ==> fields[i] == fields[1..][i - 1];
      if AlignOf(fields[0]) > rest then AlignOf(fields[0]) else rest
  }

  function StructSize(fields: seq<CType>): nat
  {
    AlignUp(EndOf(fields), StructAlign(fields))
  }

  lemma EndOfStep(fields: seq<CType>, i: nat)
    requires i < |fields|
    ensures Offset(fields, i) + SizeOf(fields[i]) == EndOf(fields[..i + 1])
  {
    assert fields[..i + 1][..i] == fields[..i];
  }

  lemma {:induction false} EndOfMonotone(fields: seq<CType>, i: nat, j: nat)
    requires i <= j <= |fields|
    ensures EndOf(fields[..i]) <= EndOf(fields[..j])
  {
    if i < j {
      EndOfMonotone(fields, i, j - 1);
      assert fields[..j][..j - 1] == fields[..j - 1];
    }
  }

  /** Naturally aligned fields never overlap, come in declaration order and
      all lie inside the struct. */
  lemma FieldsDisjoint(fields: seq<CType>, i: nat, j: nat)
    requires i < j < |fields|
    ensures Offset(fields, i) % AlignOf(fields[i]) == 0
    ensures Offset(fields, i) + SizeOf(fields[i]) <= Offset(fields, j)
  {
    EndOfStep(fields, i);
    EndOfMonotone(fields, i + 1, j);
  }

  lemma FieldInside(fields: seq<CType>, i: nat)
    requires i < |fields|
    ensures Offset(fields, i) + SizeOf(fields[i]) <= StructSize(fields)
  {
    EndOfStep(fields, i);
    EndOfMonotone(fields, i + 1, |fields|);
    assert fields[..|fields|] == fields;
  }

  /** Where `command` starts inside the master layout, and the layout's size. */
  function CommandBase(): nat
  {
    AlignUp(StructSize(MarketFields), StructAlign(CommandFields))
  }

  function LayoutSize(): nat
  {
    var align := if StructAlign(MarketFields) > StructAlign(CommandFields)
                 then StructAlign(MarketFields) else StructAlign(CommandFields);
    AlignUp(CommandBase() + StructSize(CommandFields), align)
  }

  lemma MarketLayout()
    ensures forall i :: 0 <= i < 7 ==> Offset(MarketFields, i) == 8 * i
    ensures Offset(MarketFields, 7) == 56
    ensures StructAlign(MarketFields) == 8 && StructSize(MarketFields) == 64
  {
    var m := MarketFields;
    assert m[..0] == [];
    assert EndOf(m[..1]) == 8 by { assert m[..1][..0] == []; }
    assert EndOf(m[..2]) == 16 by { assert m[..2][..1] == m[..1]; }
    assert EndOf(m[..3]) == 24 by { assert m[..3][..2] == m[..2]; }
    assert EndOf(m[..4]) == 32 by { assert m[..4][..3] == m[..3]; }
    assert EndOf(m[..5]) == 40 by { assert m[..5][..4] == m[..4]; }
    assert EndOf(m[..6]) == 48 by { assert m[..6][..5] == m[..5]; }
    assert EndOf(m[..7]) == 56 by { assert m[..7][..6] == m[..6]; }
    assert EndOf(m) == 57 by { assert m[..7] == m[..|m| - 1]; }
    assert StructAlign(m) == 8 by {
      assert AlignOf(m[0]) == 8;
      assert StructAlign(m[7..]) == 1;
    }
  }

  lemma CommandLayout()
    ensures Offset(CommandFields, 0) == 0 && Offset(CommandFields, 1) == 8
    ensures Offset(CommandFields, 2) == 16 && Offset(CommandFields, 3) == 24
    ensures StructAlign(CommandFields) == 8 && StructSize(CommandFields) == 32
  {
    var c := CommandFields;
    assert c[..0] == [];
    assert EndOf(c[..1]) == 8 by { assert c[..1][..0] == []; }
    assert EndOf(c[..2]) == 12 by { assert c[..2][..1] == c[..1]; }
    assert EndOf(c[..3]) == 24 by { assert c[..3][..2] == c[..2]; }
    assert EndOf(c) == 32 by { assert c[..3] == c[..|c| - 1]; }
    assert StructAlign(c) == 8 by {
      assert AlignOf(c[0]) == 8;
      assert StructAlign(c[3..]) == 8;
    }
  }

  /** The concrete offsets: the market block is 64 bytes with `system_ready`
      at 56, the command block is 32 bytes with `action` at 8 and `quantity`
      at 16, `command` starts at 64, and the 96-byte layout fits in the
      4096-byte shared region. */
  lemma ConcreteLayout()
    ensures forall i :: 0 <= i < 7 ==> Offset(MarketFields, i) == 8 * i
    ensures Offset(MarketFields, 7) == 56 && StructSize(MarketFields) == 64
    ensures Offset(CommandFields, 0) == 0 && Offset(CommandFields, 1) == 8
    ensures Offset(CommandFields, 2) == 16 && Offset(CommandFields, 3) == 24
    ensures StructSize(CommandFields) == 32
    ensures CommandBase() == 64 && LayoutSize() == 96 && LayoutSize() <= SHM_SIZE
  {
    MarketLayout();
    CommandLayout();
  }

  // ---------------------------------------------------------------------
  // Byte encoding of single fields (little-endian, as on AMD64)

  function Pow256(n: nat): (p: nat)
    ensures p > 0
  {
    if n == 0 then 1 else 256 * Pow256(n - 1)
  }

  function EncodeLE(v: nat, n: nat): (r: seq<Byte>)
    ensures |r| == n
  {
    if n == 0 then [] else [(v % 256) as Byte] + EncodeLE(v / 256, n - 1)
  }

  function DecodeLE(b: seq<Byte>): (v: nat)
    ensures v < Pow256(|b|)
  {
    if b == [] then 0 else b[0] + 256 * DecodeLE(b[1..])
  }

  lemma {:induction false} DecodeEncodeLE(v: nat, n: nat)
    requires v < Pow256(n)
    ensures DecodeLE(EncodeLE(v, n)) == v
  {
    if n > 0 {
      assert v / 256 < Pow256(n - 1);
      DecodeEncodeLE(v / 256, n - 1);
      assert EncodeLE(v, n)[1..] == EncodeLE(v / 256, n - 1);
    }
  }

  datatype FieldValue = U64V(u: U64) | F64V(bits: U64) | I32V(i: I32) | BoolV(b: bool)

  function TypeOf(v: FieldValue): CType
  {
    match v
    case U64V(_) => U64T
    case F64V(_) => F64T
    case I32V(_) => I32T
    case BoolV(_) => BoolT
  }

  lemma Pow256Facts()
    ensures Pow256(1) == 256 && Pow256(4) == TWO32 && Pow256(8) == TWO64
  {
  }

  /** A field's bytes: u64 and the bit pattern of an f64 as 8 little-endian
      bytes, an i32 in two's complement as 4 bytes, a bool as one byte 0/1. */
  function EncodeField(v: FieldValue): (r: seq<Byte>)
    ensures |r| == SizeOf(TypeOf(v))
  {
    match v
    case U64V(u) => EncodeLE(u, 8)
    case F64V(bits) => EncodeLE(bits, 8)
    case I32V(i) => EncodeLE(if i < 0 then i + TWO32 else i, 4)
    case BoolV(b) => [if b then 1 else 0]
  }

  function DecodeField(t: CType, b: seq<Byte>): (v: FieldValue)
    requires |b| == SizeOf(t)
    ensures TypeOf(v) == t
  {
    Pow256Facts();
    match t
    case U64T => U64V(DecodeLE(b))
    case F64T => F64V(DecodeLE(b))
    case I32T =>
      var u := DecodeLE(b);
      I32V(if u >= TWO32 / 2 then u - TWO32 else u)
    case BoolT => BoolV(b[0] != 0)
  }

  lemma DecodeEncodeField(v: FieldValue)
    ensures DecodeField(TypeOf(v), EncodeField(v)) == v
  {
    Pow256Facts();
    match v
    case U64V(u) => DecodeEncodeLE(u, 8);
    case F64V(bits) => DecodeEncodeLE(bits, 8);
    case I32V(i) => DecodeEncodeLE(if i < 0 then i + TWO32 else i, 4);
    case BoolV(b) =>
  }

  // ---------------------------------------------------------------------
  // Fields placed in a byte buffer

  datatype Slot = Slot(offset: nat, ty: CType)

  function End(s: Slot): nat
  {
    s.offset + SizeOf(s.ty)
  }

  function WriteField(buf: seq<Byte>, s: Slot, v: FieldValue): (r: seq<Byte>)
    requires TypeOf(v) == s.ty && End(s) <= |buf|
    ensures |r| == |buf|
    ensures r[s.offset..End(s)] == EncodeField(v)
    ensures forall k :: 0 <= k < |buf| && !(s.offset <= k < End(s)) ==> r[k] == buf[k]
  {
    buf[..s.offset] + EncodeField(v) + buf[End(s)..]
  }

  function ReadField(buf: seq<Byte>, s: Slot): (v: FieldValue)
    requires End(s) <= |buf|
    ensures TypeOf(v) == s.ty
  {
    DecodeField(s.ty, buf[s.offset..End(s)])
  }

  /** A field reads back what was written to it. */
  lemma ReadAfterWrite(buf: seq<Byte>, s: Slot, v: FieldValue)
    requires TypeOf(v) == s.ty && End(s) <= |buf|
    ensures ReadField(WriteField(buf, s, v), s) == v
  {
    DecodeEncodeField(v);
  }

  /** Writing one field leaves every field that does not overlap it intact. */
  lemma ReadOtherAfterWrite(buf: seq<Byte>, s: Slot, v: FieldValue, t: Slot)
    requires TypeOf(v) == s.ty && End(s) <= |buf| && End(t) <= |buf|
    requires End(s) <= t.offset || End(t) <= s.offset
    ensures ReadField(WriteField(buf, s, v), t) == ReadField(buf, t)
  {
    assert WriteField(buf, s, v)[t.offset..End(t)] == buf[t.offset..End(t)];
  }

  ghost predicate Disjoint(slots: seq<Slot>)
  {
    forall i, j :: 0 <= i < j < |slots| ==> End(slots[i]) <= slots[j].offset || End(slots[j]) <= slots[i].offset
  }

  ghost predicate Fits(slots: seq<Slot>, vals: seq<FieldValue>, n: nat)
  {
    |slots| == |vals| && forall i :: 0 <= i < |slots| ==> TypeOf(vals[i]) == slots[i].ty && End(slots[i]) <= n
  }

  function WriteAll(buf: seq<Byte>, slots: seq<Slot>, vals: seq<FieldValue>): (r: seq<Byte>)
    requires Fits(slots, vals, |buf|)
    ensures |r| == |buf|
    decreases |slots|
  {
    if slots == [] then buf
    else WriteAll(WriteField(buf, slots[0], vals[0]), slots[1..], vals[1..])
  }

  function ReadAll(buf: seq<Byte>, slots: seq<Slot>): (r: seq<FieldValue>)
    requires forall i :: 0 <= i < |slots| ==> End(slots[i]) <= |buf|
    ensures |r| == |slots|
  {
    seq(|slots|, i requires 0 <= i < |slots| => ReadField(buf, slots[i]))
  }

  lemma {:induction false} WriteAllFrame(buf: seq<Byte>, slots: seq<Slot>, vals: seq<FieldValue>, t: Slot)
    requires Fits(slots, vals, |buf|) && End(t) <= |buf|
    requires forall i :: 0 <= i < |slots| ==> End(slots[i]) <= t.offset || End(t) <= slots[i].offset
    ensures ReadField(WriteAll(buf, slots, vals), t) == ReadField(buf, t)
    decreases |slots|
  {
    if slots != [] {
      var buf' := WriteField(buf, slots[0], vals[0]);
      ReadOtherAfterWrite(buf, slots[0], vals[0], t);
      WriteAllFrame(buf', slots[1..], vals[1..], t);
    }
  }

  /** Writing every field of a non-overlapping table and reading them all
      back gives the values written. */
  lemma {:induction false} ReadAllWriteAll(buf: seq<Byte>, slots: seq<Slot>, vals: seq<FieldValue>)
    requires Fits(slots, vals, |buf|) && Disjoint(slots)
    ensures ReadAll(WriteAll(buf, slots, vals), slots) == vals
    decreases |slots|
  {
    if slots != [] {
      var buf' := WriteField(buf, slots[0], vals[0]);
      ReadAllWriteAll(buf', slots[1..], vals[1..]);
      var r := ReadAll(WriteAll(buf, slots, vals), slots);
      forall i | 0 <= i < |slots| ensures r[i] == vals[i] {
        if i == 0 {
          ReadAfterWrite(buf, slots[0], vals[0]);
          WriteAllFrame(buf', slots[1..], vals[1..], slots[0]);
        } else {
          assert slots[1..][i - 1] == slots[i];
        }
      }
    }
  }

  // ---------------------------------------------------------------------
  // The master layout as bytes

  function Slots(fields: seq<CType>, base: nat): (r: seq<Slot>)
    ensures |r| == |fields|
    ensures forall i :: 0 <= i < |fields| ==> r[i] == Slot(base + Offset(fields, i), fields[i])
  {
    seq(|fields|, i requires 0 <= i < |fields| => Slot(base + Offset(fields, i), fields[i]))
  }


  lemma SlotsDisjoint(fields: seq<CType>, base: nat)
    ensures Disjoint(Slots(fields, base))
    ensures forall i :: 0 <= i < |fields| ==> End(Slots(fields, base)[i]) <= base + StructSize(fields)
  {
    forall i, j | 0 <= i < j < |fields|
      ensures End(Slots(fields, base)[i]) <= Slots(fields, base)[j].offset
    {
      FieldsDisjoint(fields, i, j);
    }
    forall i | 0 <= i < |fields| ensures End(Slots(fields, base)[i]) <= base + StructSize(fields) {
      FieldInside(fields, i);
    }
  }

  /** `ctypes.sizeof(SharedMemoryLayout)`, the bytes a strategy maps. */
  const LAYOUT_SIZE: nat := 96

  /** Every field of the layout with its byte offset, in declaration order:
      the market block, then the command block. */
  function LayoutSlots(): seq<Slot>
  {
    [Slot(0, U64T), Slot(8, F64T), Slot(16, F64T), Slot(24, F64T), Slot(32, F64T), Slot(40, F64T),
     Slot(48, F64T), Slot(56, BoolT), Slot(64, U64T), Slot(72, I32T), Slot(80, F64T), Slot(88, F64T)]
  }

  lemma MarketSlots()
    ensures Slots(MarketFields, 0) == LayoutSlots()[..8]
  {
    MarketLayout();
    var m := Slots(MarketFields, 0);
    forall i | 0 <= i < 8 ensures m[i] == LayoutSlots()[i] {
      assert m[i] == Slot(Offset(MarketFields, i), MarketFields[i]);
    }
  }

  lemma CommandSlots()
    ensures Slots(CommandFields, 64) == LayoutSlots()[8..]
  {
    CommandLayout();
    var c := Slots(CommandFields, 64);
    forall i | 0 <= i < 4 ensures c[i] == LayoutSlots()[8 + i] {
      assert c[i] == Slot(64 + Offset(CommandFields, i), CommandFields[i]);
    }
  }

  /** The offsets table is what natural alignment gives for the two struct
      declarations, with `command` placed right after `market`, and the
      layout's size is 96. */
  lemma ConcreteSlots()
    ensures Slots(MarketFields, 0) + Slots(CommandFields, CommandBase()) == LayoutSlots()
    ensures LayoutSize() == LAYOUT_SIZE
  {
    ConcreteLayout();
    MarketSlots();
    CommandSlots();
    SplitJoin(LayoutSlots(), 8);
  }

  lemma SplitJoin(s: seq<Slot>, k: nat)
    requires k <= |s|
    ensures s[..k] + s[k..] == s
  {
  }

  /** The twelve fields of the layout never overlap and all lie in 96 bytes. */
  lemma LayoutSlotsDisjoint()
    ensures |LayoutSlots()| == 12 && Disjoint(LayoutSlots())
    ensures forall i :: 0 <= i < 12 ==> End(LayoutSlots()[i]) <= LAYOUT_SIZE
  {
    var all := LayoutSlots();
    forall i | 0 <= i < 12 ensures all[i].offset == 8 * i && End(all[i]) <= 8 * i + 8 {
    }
  }

  function Fields(l: SharedMemoryLayout<U64>): (r: seq<FieldValue>)
  {
    var m, c := l.market, l.command;
    [U64V(m.localTimeMs), F64V(m.bidPrice), F64V(m.bidQty), F64V(m.askPrice), F64V(m.askQty),
     F64V(m.realUsdtBalance), F64V(m.realBtcBalance), BoolV(m.systemReady),
     U64V(c.commandId), I32V(c.action), F64V(c.quantity), F64V(c.price)]
  }

  /** The field types of the layout in order: the market block, then the
      command block. */
  const LayoutTypes: seq<CType> := [U64T, F64T, F64T, F64T, F64T, F64T, F64T, BoolT, U64T, I32T, F64T, F64T]

  ghost predicate Typed(vs: seq<FieldValue>)
  {
    |vs| == 12 && forall i :: 0 <= i < 12 ==> TypeOf(vs[i]) == LayoutTypes[i]
  }

  function FromFields(vs: seq<FieldValue>): SharedMemoryLayout<U64>
    requires Typed(vs)
  {
    assert vs[0].U64V? && vs[7].BoolV? && vs[8].U64V? && vs[9].I32V? by {
      assert TypeOf(vs[0]) == U64T && TypeOf(vs[7]) == BoolT && TypeOf(vs[8]) == U64T && TypeOf(vs[9]) == I32T;
    }
    assert forall i :: 1 <= i < 7 || 10 <= i < 12 ==> vs[i].F64V? by {
      forall i | 1 <= i < 7 || 10 <= i < 12 ensures vs[i].F64V? {
        assert TypeOf(vs[i]) == F64T;
      }
    }
    SharedMemoryLayout(
      MarketState(vs[0].u, vs[1].bits, vs[2].bits, vs[3].bits, vs[4].bits, vs[5].bits, vs[6].bits, vs[7].b),
      StrategyCommand(vs[8].u, vs[9].i, vs[10].bits, vs[11].bits))
  }

  lemma LayoutSlotTypes()
    ensures |LayoutSlots()| == 12
    ensures forall i :: 0 <= i < 12 ==> LayoutSlots()[i].ty == LayoutTypes[i]
  {
  }

  lemma FieldsTypes(l: SharedMemoryLayout<U64>)
    ensures Typed(Fields(l))
  {
    var fs := Fields(l);
    forall i | 0 <= i < 12 ensures TypeOf(fs[i]) == LayoutTypes[i] {
      if i < 6 {
        assert i == 0 || i == 1 || i == 2 || i == 3 || i == 4 || i == 5;
      } else {
        assert i == 6 || i == 7 || i == 8 || i == 9 || i == 10 || i == 11;
      }
    }
  }

  lemma FieldsTyped(l: SharedMemoryLayout<U64>)
    ensures Typed(Fields(l))
    ensures Fits(LayoutSlots(), Fields(l), LAYOUT_SIZE)
  {
    LayoutSlotsDisjoint();
    LayoutSlotTypes();
    FieldsTypes(l);
  }


  lemma ReadAllTyped(b: seq<Byte>)
    requires |b| >= LAYOUT_SIZE
    ensures forall i :: 0 <= i < 12 ==> End(LayoutSlots()[i]) <= |b|
    ensures Typed(ReadAll(b, LayoutSlots()))
  {
    LayoutSlotsDisjoint();
    LayoutSlotTypes();
  }

  lemma FromFieldsFields(l: SharedMemoryLayout<U64>)
    ensures Typed(Fields(l)) && FromFields(Fields(l)) == l
  {
    FieldsTypes(l);
  }

  /** The 96 bytes of a layout, padding zeroed. */
  function Encode(l: SharedMemoryLayout<U64>): (r: seq<Byte>)
    ensures |r| == LAYOUT_SIZE
  {
    FieldsTyped(l);
    WriteAll(seq(LAYOUT_SIZE, _ => 0), LayoutSlots(), Fields(l))
  }

  /** Reading the layout from the start of the shared region. */
  function Decode(b: seq<Byte>): SharedMemoryLayout<U64>
    requires |b| >= LAYOUT_SIZE
  {
    ReadAllTyped(b);
    FromFields(ReadAll(b, LayoutSlots()))
  }

  /** Decoding the encoded layout returns it unchanged. */
  lemma DecodeEncode(l: SharedMemoryLayout<U64>)
    ensures Decode(Encode(l)) == l
  {
    LayoutSlotsDisjoint();
    FieldsTyped(l);
    ReadAllWriteAll(seq(LAYOUT_SIZE, _ => 0), LayoutSlots(), Fields(l));
    assert ReadAll(Encode(l), LayoutSlots()) == Fields(l);
    FromFieldsFields(l);
  }

  /** Slot `i` of the layout's twelve fields. */
  function LayoutSlot(i: nat): (s: Slot)
    requires i < 12
    ensures s.ty == LayoutTypes[i] && End(s) <= LAYOUT_SIZE
  {
    LayoutSlotsDisjoint();
    LayoutSlotTypes();
    LayoutSlots()[i]
  }

  /** Writing any one field of the shared record changes that field only:
      every other field reads back as before. */
  lemma WriteOneField(buf: seq<Byte>, i: nat, v: FieldValue, j: nat)
    requires |buf| >= LAYOUT_SIZE && i < 12 && j < 12 && i != j
    requires TypeOf(v) == LayoutTypes[i]
    ensures ReadField(WriteField(buf, LayoutSlot(i), v), LayoutSlot(i)) == v
    ensures ReadField(WriteField(buf, LayoutSlot(i), v), LayoutSlot(j)) == ReadField(buf, LayoutSlot(j))
  {
    var s := LayoutSlots();
    assert End(s[i]) <= s[j].offset || End(s[j]) <= s[i].offset by {
      LayoutSlotsDisjoint();
      if i < j { assert 0 <= i < j < |s|; } else { assert 0 <= j < i < |s|; }
    }
    ReadAfterWrite(buf, LayoutSlot(i), v);
    ReadOtherAfterWrite(buf, LayoutSlot(i), v, LayoutSlot(j));
  }

}
