// CRC-32 as src/helpers/conversation-zip.ts computes it, a byte at a time from
// a 256-entry table, proved equal to the bit-serial definition of section 8 of
// RFC 1952: shift in one message bit at a time, reflected polynomial 0xEDB88320.

module Crc32 {

  const POLYNOMIAL: bv32 := 0xEDB8_8320

  // ------------------------------------------------- bit-serial reference

  function Bit(b: bv8, k: nat): bool {
    match k
    case 0 => b & 1 != 0
    case 1 => b & 2 != 0
    case 2 => b & 4 != 0
    case 3 => b & 8 != 0
    case 4 => b & 16 != 0
    case 5 => b & 32 != 0
    case 6 => b & 64 != 0
    case _ => b & 128 != 0
  }

  /** The eight bits of a byte, least significant first. */
  function BitsOf(b: bv8): seq<bool> {
    [Bit(b, 0), Bit(b, 1), Bit(b, 2), Bit(b, 3), Bit(b, 4), Bit(b, 5), Bit(b, 6), Bit(b, 7)]
  }

  function MessageBits(bytes: seq<bv8>): seq<bool> {
    if bytes == [] then [] else BitsOf(bytes[0]) + MessageBits(bytes[1..])
  }

  /** Shift one message bit into the register. */
  function ShiftIn(register: bv32, bit: bool): bv32 {
    if (register & 1 != 0) != bit then POLYNOMIAL ^ (register >> 1) else register >> 1
  }

  function ShiftAll(register: bv32, bits: seq<bool>): bv32
    decreases |bits|
  {
    if bits == [] then register else ShiftAll(ShiftIn(register, bits[0]), bits[1..])
  }

  /** The CRC of a message, from its bits alone. */
  function BitSerial(bytes: seq<bv8>): bv32 {
    ShiftAll(0xFFFF_FFFF, MessageBits(bytes)) ^ 0xFFFF_FFFF
  }

  /** The published check of the letter "a". */
  lemma KnownAnswer()
    ensures BitSerial([0x61]) == 0xE8B7_BE43 && BitSerial([]) == 0
  {
    hide ShiftAll;
    var message: seq<bv8> := [0x61];
    assert message[1..] == [];
    assert BitsOf(0x61) == [true, false, false, false, false, true, true, false];
    assert MessageBits(message) == BitsOf(0x61) + MessageBits([]) == BitsOf(0x61);
    ShiftEight(0xFFFF_FFFF, BitsOf(0x61));
    assert ShiftIn(0xFFFF_FFFF, true) == 0x7FFFFFFF;
    assert ShiftIn(0x7FFFFFFF, false) == 0xD2477CDF;
    assert ShiftIn(0xD2477CDF, false) == 0x849B3D4F;
    assert ShiftIn(0x849B3D4F, false) == 0xAFF51D87;
    assert ShiftIn(0xAFF51D87, false) == 0xBA420DE3;
    assert ShiftIn(0xBA420DE3, true) == 0x5D2106F1;
    assert ShiftIn(0x5D2106F1, true) == 0x2E908378;
    assert ShiftIn(0x2E908378, false) == 0x174841BC;
    NothingShifted(0xFFFF_FFFF);
  }

  lemma NothingShifted(r: bv32)
    ensures ShiftAll(r, []) == r
  {
  }

  /** Four and then four more bits into the register. */
  function FourIn(r: bv32, bits: seq<bool>): bv32
    requires |bits| >= 4
  {
    ShiftIn(ShiftIn(ShiftIn(ShiftIn(r, bits[0]), bits[1]), bits[2]), bits[3])
  }

  lemma ShiftEight(r: bv32, bits: seq<bool>)
    requires |bits| == 8
    ensures ShiftAll(r, bits) == FourIn(FourIn(r, bits), bits[4..])
  {
    hide ShiftIn, FourIn;
    ShiftFour(r, bits);
    ShiftFour(FourIn(r, bits), bits[4..]);
    NothingShifted(FourIn(FourIn(r, bits), bits[4..]));
    assert bits[4..][4..] == [];
  }

  lemma ShiftFour(r: bv32, bits: seq<bool>)
    requires |bits| >= 4
    ensures ShiftAll(r, bits) == ShiftAll(FourIn(r, bits), bits[4..])
  {
    hide ShiftIn;
    var a := ShiftIn(r, bits[0]);
    var b := ShiftIn(a, bits[1]);
    var c := ShiftIn(b, bits[2]);
    assert ShiftAll(a, bits[1..]) == ShiftAll(b, bits[1..][1..]) && bits[1..][1..] == bits[2..];
    assert ShiftAll(b, bits[2..]) == ShiftAll(c, bits[2..][1..]) && bits[2..][1..] == bits[3..];
    assert ShiftAll(c, bits[3..]) == ShiftAll(ShiftIn(c, bits[3]), bits[3..][1..]) && bits[3..][1..] == bits[4..];
  }

  // ------------------------------------------------------- division steps

  function Xor(x: bv32, y: bv32): bv32 { x ^ y }
  function Half(x: bv32): bv32 { x >> 1 }
  function Odd(x: bv32): bool { x & 1 != 0 }
  function Quarter(x: bv32): bv32 { x >> 2 }

  /** One division step with no message bit: the loop body of the table builder. */
  function Step(c: bv32): bv32 {
    if c & 1 != 0 then POLYNOMIAL ^ (c >> 1) else c >> 1
  }

  function Step2(c: bv32): bv32 { Step(Step(c)) }
  function Step4(c: bv32): bv32 { Step2(Step2(c)) }
  function Step8(c: bv32): bv32 { Step4(Step4(c)) }

  lemma LowBit(x: bv32)
    ensures x & 1 == 0 || x & 1 == 1
  {
  }

  lemma LinearEven(x: bv32, y: bv32)
    requires x & 1 == 0 && y & 1 == 0
    ensures Step(x ^ y) == Step(x) ^ Step(y)
  {
  }

  lemma LinearOdd(x: bv32, y: bv32)
    requires x & 1 == 1 && y & 1 == 1
    ensures Step(x ^ y) == Step(x) ^ Step(y)
  {
  }

  lemma LinearMixed(x: bv32, y: bv32)
    requires x & 1 == 1 && y & 1 == 0
    ensures Step(x ^ y) == Step(x) ^ Step(y)
    ensures Step(y ^ x) == Step(y) ^ Step(x)
  {
  }

  /** Division steps are linear over exclusive or. */
  lemma StepLinear(x: bv32, y: bv32)
    ensures Step(Xor(x, y)) == Xor(Step(x), Step(y))
  {
    hide Step;
    LowBit(x);
    LowBit(y);
    if x & 1 == 0 {
      if y & 1 == 0 { LinearEven(x, y); } else { LinearMixed(y, x); }
    } else {
      if y & 1 == 0 { LinearMixed(x, y); } else { LinearOdd(x, y); }
    }
  }

  lemma Step2Linear(x: bv32, y: bv32)
    ensures Step2(Xor(x, y)) == Xor(Step2(x), Step2(y))
  {
    hide Step, Xor;
    StepLinear(x, y);
    StepLinear(Step(x), Step(y));
  }

  lemma Step4Linear(x: bv32, y: bv32)
    ensures Step4(Xor(x, y)) == Xor(Step4(x), Step4(y))
  {
    hide Step2, Xor;
    Step2Linear(x, y);
    Step2Linear(Step2(x), Step2(y));
  }

  lemma Step8Linear(x: bv32, y: bv32)
    ensures Step8(Xor(x, y)) == Xor(Step8(x), Step8(y))
  {
    hide Step4, Xor;
    Step4Linear(x, y);
    Step4Linear(Step4(x), Step4(y));
  }

  /** Zero low bits never meet the polynomial. */
  lemma Step2High(h: bv32)
    requires h & 3 == 0
    ensures Step2(h) == Quarter(h)
  {
    assert h & 1 == 0 && (h >> 1) & 1 == 0 && (h >> 1) >> 1 == h >> 2;
    assert Step(h) == h >> 1;
    assert Step(h >> 1) == (h >> 1) >> 1;
  }

  lemma Quarters(h: bv32)
    requires h & 0xff == 0
    ensures h & 3 == 0 && Quarter(h) & 3 == 0 && Quarter(Quarter(h)) & 3 == 0
    ensures Quarter(Quarter(Quarter(h))) & 3 == 0
    ensures Quarter(Quarter(Quarter(Quarter(h)))) == Shift8(h)
  {
  }

  lemma Step8High(h: bv32)
    requires h & 0xff == 0
    ensures Step8(h) == Shift8(h)
  {
    hide Step2, Quarter, Shift8;
    Quarters(h);
    Step2High(h);
    Step2High(Quarter(h));
    Step2High(Quarter(Quarter(h)));
    Step2High(Quarter(Quarter(Quarter(h))));
  }

  function Shift8(x: bv32): bv32 { x >> 8 }
  function Low(x: bv32): bv32 { x & 0xff }
  function High(x: bv32): bv32 { x & 0xFFFF_FF00 }

  lemma LowAndHigh(x: bv32)
    ensures x == Xor(Low(x), High(x)) && High(x) & 0xff == 0 && Shift8(High(x)) == Shift8(x)
  {
  }

  /** Eight steps turn the low byte into a table entry and only shift the rest. */
  lemma SplitLowByte(x: bv32)
    ensures Step8(x) == Xor(Step8(Low(x)), Shift8(x))
  {
    hide Step8, Xor, Low, High, Shift8;
    LowAndHigh(x);
    Step8Linear(Low(x), High(x));
    Step8High(High(x));
  }

  // -------------------------------------------- one byte, bit after bit

  lemma ShiftInEven(s: bv32, d: bv32)
    requires s & 1 == 0
    ensures ShiftIn(s ^ d, d & 1 != 0) == Step(s) ^ (d >> 1)
  {
    LowBit(d);
  }

  lemma ShiftInOdd(s: bv32, d: bv32)
    requires s & 1 == 1
    ensures ShiftIn(s ^ d, d & 1 != 0) == Step(s) ^ (d >> 1)
  {
    LowBit(d);
  }

  /** Message bits still to come are a plain difference in the register. */
  lemma ShiftInPending(s: bv32, d: bv32)
    ensures ShiftIn(Xor(s, d), Odd(d)) == Xor(Step(s), Half(d))
  {
    hide Step, ShiftIn;
    LowBit(s);
    if s & 1 == 0 { ShiftInEven(s, d); } else { ShiftInOdd(s, d); }
  }

  /** The byte as the register sees it after `k` of its bits have been shifted in. */
  function Pending(b: bv8, k: nat): bv32 {
    if k == 0 then b as bv32 else Half(Pending(b, k - 1))
  }

  lemma LowBitsPending(b: bv8, d: bv32)
    requires d == b as bv32
    ensures Bit(b, 0) == Odd(d) && Bit(b, 1) == Odd(Half(d))
    ensures Bit(b, 2) == Odd(Half(Half(d))) && Bit(b, 3) == Odd(Half(Half(Half(d))))
  {
  }

  lemma HighBitsPending(b: bv8, d: bv32)
    requires d == Half(Half(Half(Half(b as bv32))))
    ensures Bit(b, 4) == Odd(d) && Bit(b, 5) == Odd(Half(d))
    ensures Bit(b, 6) == Odd(Half(Half(d))) && Bit(b, 7) == Odd(Half(Half(Half(d))))
    ensures Half(Half(Half(Half(d)))) == 0
  {
  }

  lemma PendingNext(b: bv8, k: nat)
    ensures Pending(b, k + 1) == Half(Pending(b, k))
  {
    hide Half;
  }

  lemma LowPending(b: bv8)
    ensures Bit(b, 0) == Odd(Pending(b, 0)) && Bit(b, 1) == Odd(Pending(b, 1))
    ensures Bit(b, 2) == Odd(Pending(b, 2)) && Bit(b, 3) == Odd(Pending(b, 3))
    ensures Pending(b, 4) == Half(Half(Half(Half(b as bv32))))
  {
    hide Half, Odd, Bit, Pending;
    FirstPending(b);
    LowBitsPending(b, b as bv32);
    PendingNext(b, 0);
    PendingNext(b, 1);
    PendingNext(b, 2);
    PendingNext(b, 3);
  }

  lemma HighPending(b: bv8)
    ensures Bit(b, 4) == Odd(Pending(b, 4)) && Bit(b, 5) == Odd(Pending(b, 5))
    ensures Bit(b, 6) == Odd(Pending(b, 6)) && Bit(b, 7) == Odd(Pending(b, 7))
    ensures Pending(b, 8) == 0
  {
    hide Half, Odd, Bit, Pending;
    LowPending(b);
    HighBitsPending(b, Pending(b, 4));
    PendingNext(b, 4);
    PendingNext(b, 5);
    PendingNext(b, 6);
    PendingNext(b, 7);
  }

  lemma PendingBit(b: bv8, k: nat)
    requires k < 8
    ensures BitsOf(b)[k] == Odd(Pending(b, k))
  {
    hide Half, Odd, Bit, Pending;
    if k < 4 { LowPending(b); } else { HighPending(b); }
  }

  lemma FirstPending(b: bv8)
    ensures Pending(b, 0) == b as bv32
  {
  }

  /** The division steps left when `k` of eight have been taken. */
  function StepsFrom(s: bv32, k: nat): bv32
    requires k <= 8
    decreases 8 - k
  {
    if k == 8 then s else StepsFrom(Step(s), k + 1)
  }

  lemma EightSteps(s: bv32)
    ensures StepsFrom(s, 0) == Step8(s)
  {
    hide Step;
    var t := Step4(s);
    assert StepsFrom(t, 4) == StepsFrom(Step4(t), 8) by {
      assert StepsFrom(t, 4) == StepsFrom(Step2(t), 6);
    }
    assert StepsFrom(s, 0) == StepsFrom(Step2(s), 2) == StepsFrom(t, 4);
  }

  /** Shifting in the bits of a byte from bit `k` on. */
  lemma {:induction false} ShiftFrom(s: bv32, b: bv8, k: nat)
    requires k <= 8
    ensures ShiftAll(Xor(s, Pending(b, k)), BitsOf(b)[k..]) == Xor(StepsFrom(s, k), Pending(b, 8))
    decreases 8 - k
  {
    hide Step, ShiftIn, Half, Xor, Pending, Bit, Odd;
    if k < 8 {
      PendingBit(b, k);
      PendingNext(b, k);
      ShiftInPending(s, Pending(b, k));
      assert BitsOf(b)[k..][1..] == BitsOf(b)[k + 1..];
      ShiftFrom(Step(s), b, k + 1);
    }
  }

  // ------------------------------------------------ byte-at-a-time update

  /** A table is right when its every entry is what eight steps make of the index. */
  ghost predicate IsCrcTable(t: seq<bv32>) {
    |t| == 256 && forall n: nat :: n < 256 ==> t[n] == Step8(n as bv32)
  }

  lemma TableEntry(t: seq<bv32>, x: bv32)
    requires IsCrcTable(t)
    ensures Low(x) as nat < 256 && t[Low(x) as nat] == Step8(Low(x))
  {
    hide Step8;
    SmallIndex(x);
  }

  lemma SmallIndex(x: bv32)
    ensures Low(x) as nat < 256 && (Low(x) as nat) as bv32 == Low(x)
  {
  }

  lemma XorPlain(c: bv32, d: bv32, x: bv32)
    ensures Xor(Xor(c, d), d) == c && Xor(x, 0) == x
  {
  }

  lemma HighUntouched(c: bv32, b: bv8)
    ensures Shift8(Xor(c, b as bv32)) == Shift8(c)
  {
  }

  /** One byte's eight bits shifted in are eight steps of the difference. */
  lemma ByteSteps(c: bv32, b: bv8)
    ensures ShiftAll(c, BitsOf(b)) == Step8(Xor(c, b as bv32))
  {
    hide Step8, StepsFrom, ShiftAll, BitsOf, Pending, Xor;
    FirstPending(b);
    HighPending(b);
    var x := Xor(c, b as bv32);
    XorPlain(c, b as bv32, StepsFrom(x, 0));
    EightSteps(x);
    ShiftFrom(x, b, 0);
    assert BitsOf(b)[0..] == BitsOf(b);
  }

  /** One byte through the table is that byte's eight bits shifted in. */
  lemma TableStep(t: seq<bv32>, c: bv32, b: bv8)
    requires IsCrcTable(t)
    ensures var x := Low(Xor(c, b as bv32)) as nat;
            x < 256 && Xor(t[x], Shift8(c)) == ShiftAll(c, BitsOf(b))
  {
    hide Step8, ShiftAll, BitsOf, Low, Xor, Shift8;
    ByteSteps(c, b);
    HighUntouched(c, b);
    SplitLowByte(Xor(c, b as bv32));
    TableEntry(t, Xor(c, b as bv32));
  }

  lemma {:induction false} ShiftAllAppend(c: bv32, xs: seq<bool>, ys: seq<bool>)
    ensures ShiftAll(c, xs + ys) == ShiftAll(ShiftAll(c, xs), ys)
    decreases |xs|
  {
    hide ShiftIn;
    if xs == [] {
      assert xs + ys == ys;
    } else {
      assert (xs + ys)[1..] == xs[1..] + ys;
      ShiftAllAppend(ShiftIn(c, xs[0]), xs[1..], ys);
    }
  }

  lemma {:induction false} MessageBitsSnoc(bytes: seq<bv8>, b: bv8)
    ensures MessageBits(bytes + [b]) == MessageBits(bytes) + BitsOf(b)
  {
    hide BitsOf;
    if bytes == [] {
      assert (bytes + [b])[1..] == [];
      assert BitsOf(b) + [] == BitsOf(b) == [] + BitsOf(b);
    } else {
      assert (bytes + [b])[1..] == bytes[1..] + [b];
      MessageBitsSnoc(bytes[1..], b);
      assert BitsOf(bytes[0]) + (MessageBits(bytes[1..]) + BitsOf(b)) == BitsOf(bytes[0]) + MessageBits(bytes[1..]) + BitsOf(b);
    }
  }

  // --------------------------------------------------------- the two loops

  method BuildTable() returns (t: array<bv32>)
    ensures fresh(t) && IsCrcTable(t[..])
  {
    hide Step8, StepsFrom;
    t := new bv32[256];
    for n := 0 to 256
      invariant forall m: nat :: m < n ==> t[m] == Step8(m as bv32)
    {
      var c := n as bv32;
      ghost var start := c;
      EightSteps(start);
      for k := 0 to 8
        modifies {}
        invariant StepsFrom(c, k) == Step8(start)
      {
        NextStep(c, k);
        c := if c & 1 != 0 then POLYNOMIAL ^ (c >> 1) else c >> 1;
      }
      NoStepLeft(c);
      t[n] := c;
    }
  }

  lemma NextStep(c: bv32, k: nat)
    requires k < 8
    ensures StepsFrom(c, k) == StepsFrom(if c & 1 != 0 then POLYNOMIAL ^ (c >> 1) else c >> 1, k + 1)
  {
    hide StepsFrom;
    assert Step(c) == if c & 1 != 0 then POLYNOMIAL ^ (c >> 1) else c >> 1;
    NextStepOf(c, k);
  }

  lemma NextStepOf(c: bv32, k: nat)
    requires k < 8
    ensures StepsFrom(c, k) == StepsFrom(Step(c), k + 1)
  {
    hide Step;
  }

  lemma NoStepLeft(c: bv32)
    ensures StepsFrom(c, 8) == c
  {
  }

  /** The table-driven loop computes the bit-serial CRC of every byte sequence. */
  method Crc32(table: array<bv32>, bytes: seq<bv8>) returns (crc: bv32)
    requires IsCrcTable(table[..])
    ensures crc == BitSerial(bytes)
  {
    hide ShiftAll, BitsOf, MessageBits, Low, Xor, Shift8, Step8;
    var c: bv32 := 0xFFFF_FFFF;
    EmptyMessage();
    assert bytes[..0] == [];
    for i := 0 to |bytes|
      invariant c == ShiftAll(0xFFFF_FFFF, MessageBits(bytes[..i]))
    {
      assert bytes[..i + 1] == bytes[..i] + [bytes[i]];
      MessageBitsSnoc(bytes[..i], bytes[i]);
      ShiftAllAppend(0xFFFF_FFFF, MessageBits(bytes[..i]), BitsOf(bytes[i]));
      TableStep(table[..], c, bytes[i]);
      c := Xor(table[Low(Xor(c, bytes[i] as bv32)) as nat], Shift8(c));
    }
    assert bytes[..|bytes|] == bytes;
    crc := c ^ 0xFFFF_FFFF;
  }

  lemma EmptyMessage()
    ensures ShiftAll(0xFFFF_FFFF, MessageBits([])) == 0xFFFF_FFFF
  {
  }
}