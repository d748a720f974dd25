/** The timed section of the firmware (TIMED_BEGIN to TIMED_END of pru/ws2812_uniform.p) run on the emulator:
    for every colour, every set of lengths and every profile whose delay counts are positive, each LED pin
    gets exactly its symbols with exactly the profile's widths and period. This is what check_wave of
    tests/pru_audit.py checks on sample frames. */
module Transmitter {
  import opened Abi
  import opened Arithmetic
  import opened Wrappers
  import opened PruEmulator
  import F = Firmware
  import T = Transaction

  // ---------------------------------------------------------------- bits of words

  lemma {:induction false} Pow2Even(n: nat)
    requires n > 0
    ensures Pow2(n) % 2 == 0 && Pow2(n) / 2 == Pow2(n - 1)
  {
  }

  lemma DivDiv(x: nat, m: nat)
    requires m > 0
    ensures x / (2 * m) == x / 2 / m
  {
    var q := x / (2 * m);
    var h := x / 2;
    var p := h / m;
    assert x == 2 * h + x % 2;
    assert h == p * m + h % m;
    assert x == p * (2 * m) + (2 * (h % m) + x % 2);
    assert 0 <= 2 * (h % m) + x % 2 < 2 * m;
    Quotient(x, 2 * m, p, 2 * (h % m) + x % 2);
  }

  lemma BitZero(x: nat)
    ensures BitOf(x, 0) <==> x % 2 == 1
  {
  }

  lemma BitHalf(x: nat, n: nat)
    requires n > 0
    ensures BitOf(x, n) == BitOf(x / 2, n - 1)
  {
    DivDiv(x, Pow2(n - 1));
  }

  /** The bitwise operators work bit by bit. */
  lemma {:induction false} BitwiseBit(f: (bool, bool) -> bool, a: nat, b: nat, n: nat, j: nat)
    requires j < n
    ensures BitOf(Bitwise(f, a, b, n), j) == f(BitOf(a, j), BitOf(b, j))
  {
    hide BitOf;
    var x := Bitwise(f, a, b, n);
    assert x / 2 == Bitwise(f, a / 2, b / 2, n - 1) && (x % 2 == 1 <==> f(a % 2 == 1, b % 2 == 1));
    if j > 0 {
      BitwiseBit(f, a / 2, b / 2, n - 1, j - 1);
      BitHalf(x, j);
      BitHalf(a, j);
      BitHalf(b, j);
    } else {
      BitZero(x);
      BitZero(a);
      BitZero(b);
    }
  }

  lemma {:induction false} BitwiseFits(f: (bool, bool) -> bool, a: nat, b: nat, n: nat)
    ensures Bitwise(f, a, b, n) < Pow2(n)
  {
    if n > 0 { BitwiseFits(f, a / 2, b / 2, n - 1); }
  }

  /** Words with the same bits are equal. */
  lemma {:induction false} SameBits(a: nat, b: nat, n: nat)
    requires a < Pow2(n) && b < Pow2(n) && forall j: nat :: j < n ==> BitOf(a, j) == BitOf(b, j)
    ensures a == b
  {
    if n > 0 {
      BitZero(a);
      BitZero(b);
      forall j: nat | j < n - 1 ensures BitOf(a / 2, j) == BitOf(b / 2, j) {
        BitHalf(a, j + 1);
        BitHalf(b, j + 1);
      }
      hide BitOf;
      SameBits(a / 2, b / 2, n - 1);
    }
  }

  lemma Pow32()
    ensures Pow2(32) == 0x1_0000_0000
  {
    assert Pow2(8) == 0x100;
    assert Pow2(16) == 0x1_0000;
    assert Pow2(24) == 0x100_0000;
  }

  lemma {:induction false} PowerBit(i: nat, j: nat)
    ensures BitOf(Pow2(i), j) <==> i == j
  {
    if j > 0 { BitHalf(Pow2(i), j); }
    if i > 0 { Pow2Even(i); }
    if i > 0 && j > 0 {
      PowerBit(i - 1, j - 1);
    } else if j > 0 {
      ZeroBit(j - 1);
    }
  }

  lemma ZeroBit(j: nat)
    ensures !BitOf(0, j)
  {
  }

  lemma AndBits(a: u32, b: u32)
    ensures forall j: nat :: j < 32 ==> BitOf(AndWord(a, b), j) == (BitOf(a, j) && BitOf(b, j))
  {
    hide BitOf;
    var f := (p: bool, q: bool) => p && q;
    Pow32();
    BitwiseFits(f, a, b, 32);
    forall j: nat | j < 32 ensures BitOf(AndWord(a, b), j) == (BitOf(a, j) && BitOf(b, j)) { BitwiseBit(f, a, b, 32, j); }
  }

  lemma OrBits(a: u32, b: u32)
    ensures forall j: nat :: j < 32 ==> BitOf(OrWord(a, b), j) == (BitOf(a, j) || BitOf(b, j))
  {
    hide BitOf;
    var f := (p: bool, q: bool) => p || q;
    Pow32();
    BitwiseFits(f, a, b, 32);
    forall j: nat | j < 32 ensures BitOf(OrWord(a, b), j) == (BitOf(a, j) || BitOf(b, j)) { BitwiseBit(f, a, b, 32, j); }
  }

  lemma XorBits(a: u32, b: u32)
    ensures forall j: nat :: j < 32 ==> BitOf(XorWord(a, b), j) == (BitOf(a, j) != BitOf(b, j))
  {
    hide BitOf;
    var f := (p: bool, q: bool) => p != q;
    Pow32();
    BitwiseFits(f, a, b, 32);
    forall j: nat | j < 32 ensures BitOf(XorWord(a, b), j) == (BitOf(a, j) != BitOf(b, j)) { BitwiseBit(f, a, b, 32, j); }
  }

  lemma AndSelf(a: u32)
    ensures AndWord(a, a) == a
  {
    AndBits(a, a);
    Pow32();
    SameBits(AndWord(a, a), a, 32);
  }

  // ---------------------------------------------------------------- single instructions

  /** The code of a whole register. */
  function R(n: nat): Code
    requires n < 32
  {
    224 + n
  }

  lemma Whole(r: Registers, n: nat, v: int)
    requires n < 32
    ensures Reg(r, R(n)) == r[n] && Put(r, R(n), v) == r[n := Cut(v)]
  {
  }

  /** MOV, as the assembler emits it. */
  function Mov(dst: nat, src: nat): Instruction
    requires dst < 32 && src < 32
  {
    Alu(And, R(dst), R(src), Field(R(src)))
  }

  predicate Goes(i: Instruction, target: int) {
    i.Branch? && i.test == Always && i.target == target
  }

  /** From m the code reaches t in n plain steps. */
  ghost predicate Reaches(code: seq<Instruction>, m: Machine, n: nat, t: Machine) {
    Shaped(m) && Shaped(t) && Run(code, m, n) == Some(t)
  }

  lemma Then(code: seq<Instruction>, m: Machine, a: nat, t: Machine, b: nat, u: Machine)
    requires Reaches(code, m, a, t) && Reaches(code, t, b, u)
    ensures Reaches(code, m, a + b, u)
  {
    hide Run;
    RunAdds(code, m, a, b);
  }

  lemma One(code: seq<Instruction>, m: Machine, t: Machine)
    requires Shaped(m) && Plain(code, m) == Some(t)
    ensures Reaches(code, m, 1, t)
  {
    StepKeepsShape(code, m);
    hide Plain;
    assert Run(code, t, 0) == Some(t);
  }

  predicate Here(code: seq<Instruction>, m: Machine) {
    Shaped(m) && 0 <= m.pc < |code|
  }

  lemma MovRuns(code: seq<Instruction>, m: Machine, dst: nat, src: nat)
    requires Here(code, m) && dst < 32 && src < 32 && code[m.pc] == Mov(dst, src)
    ensures Reaches(code, m, 1, Next(m.(r := m.r[dst := m.r[src]]), m.pc + 1))
  {
    Whole(m.r, src, 0);
    Whole(m.r, dst, m.r[src]);
    AndSelf(m.r[src]);
    CutSmall(m.r[src]);
    hide Reg, Put, AndWord, Cut;
    One(code, m, Next(m.(r := m.r[dst := m.r[src]]), m.pc + 1));
  }

  lemma GoRuns(code: seq<Instruction>, m: Machine, target: int)
    requires Here(code, m) && Goes(code[m.pc], target)
    ensures Reaches(code, m, 1, Next(m, target))
  {
    hide Reg;
    One(code, m, Next(m, target));
  }

  lemma TestRuns(code: seq<Instruction>, m: Machine, test: Test, n: nat, v: u32, target: int)
    requires Here(code, m) && n < 32 && code[m.pc] == Branch(test, R(n), Imm(v), target)
    ensures Reaches(code, m, 1, Next(m, if Taken(test, m.r[n], v) then target else m.pc + 1))
  {
    Whole(m.r, n, 0);
    hide Reg, Taken;
    One(code, m, Next(m, if Taken(test, m.r[n], v) then target else m.pc + 1));
  }

  /** A delay loop on a whole register. */
  lemma DelayRuns(code: seq<Instruction>, m: Machine, n: nat)
    requires Here(code, m) && n < 32 && m.r[n] > 0
    requires m.pc + 1 < |code| && code[m.pc] == Alu(Sub, R(n), R(n), Imm(1)) && code[m.pc + 1] == Branch(Ne, R(n), Imm(0), m.pc)
    ensures Reaches(code, m, 2 * (m.r[n] as int), m.(r := m.r[n := 0], cycles := m.cycles + 2 * (m.r[n] as int), pc := m.pc + 2))
  {
    Whole(m.r, n, 0);
    CutSmall(0);
    hide Reg, Put, Plain, Run, Cut;
    DelayExact(code, m);
  }

  // ---------------------------------------------------------------- the pin writes

  /** The CLEAR register of GPIO2, GPIO1, GPIO0. */
  function ClearAddress(block: nat): u32 {
    if block == 0 then 0x481ac190 else if block == 1 then 0x4804c190 else 0x44e07190
  }

  predicate Within(v: u32, mask: u32) {
    forall j: nat :: j < 32 && BitOf(v, j) ==> BitOf(mask, j)
  }

  /** Block k is granted, addressed by r7, and r9 names only its LED pins. */
  predicate Granted(m: Machine, k: nat) {
    && Shaped(m) && k < 3 && m.r[7] == ClearAddress(k) && Within(m.r[9], FixedMask(k))
    && m.grants != [] && m.grants[|m.grants| - 1].1 == k + 1
  }

  function PinInstruction(rising: bool): Instruction {
    Store(Register(7), 36, Imm(if rising then 4 else 0), 4)
  }

  function Offset(rising: bool): int { if rising then SET else CLEAR }

  /** A pin write and its record. */
  function Written(m: Machine, k: nat, rising: bool): Machine
    requires Shaped(m) && k < 3
  {
    m.(gpio := m.gpio[k := if rising then OrWord(m.gpio[k], m.r[9]) else AndWord(m.gpio[k], Cut(-1 - (m.r[9] as int)))],
       events := m.events + [Event(m.cycles, k, Offset(rising), m.r[9], m.pc)])
  }

  lemma ActiveBytes(r: Registers)
    ensures GetBytes(r, 36, 4) == WordBytes(r[9])
  {
    var x := r[9];
    assert ByteCode(36) == 9 && ByteCode(37) == 41 && ByteCode(38) == 73 && ByteCode(39) == 105;
    assert Reg(r, 9) == D0(x) && Reg(r, 41) == D1(x) && Reg(r, 73) == D2(x) && Reg(r, 105) == D3(x);
    hide Reg, ByteCode, D0, D1, D2, D3;
    assert GetBytes(r, 36, 0) == [];
    assert GetBytes(r, 36, 1) == [D0(x)];
    assert GetBytes(r, 36, 2) == [D0(x), D1(x)];
    assert GetBytes(r, 36, 3) == [D0(x), D1(x), D2(x)];
  }

  lemma PinAddress(k: nat, rising: bool)
    requires k < 3
    ensures var a := ClearAddress(k) + if rising then 4 else 0;
            && BlockAt(a) == Some(k) && a % 0x1000 == Offset(rising) && a >= RAM_BYTES && a != SYSCFG && a != CTBIR
  {
  }

  lemma WithinOr(v: u32, mask: u32)
    requires Within(v, mask)
    ensures OrWord(v, mask) == mask
  {
    OrBits(v, mask);
    Pow32();
    hide BitOf, OrWord;
    SameBits(OrWord(v, mask), mask, 32);
  }

  lemma PinWriteRuns(code: seq<Instruction>, m: Machine, k: nat, rising: bool)
    requires Here(code, m) && Granted(m, k) && code[m.pc] == PinInstruction(rising)
    ensures Reaches(code, m, 1, Next(Written(m, k, rising), m.pc + 1))
  {
    ActiveBytes(m.r);
    JoinDigits(m.r[9]);
    PinAddress(k, rising);
    WithinOr(m.r[9], FixedMask(k));
    hide Reg, GetBytes, Join, D0, D1, D2, D3, OrWord, AndWord, Cut, BlockAt, ClearAddress, FixedMask, Within;
    assert AddressOf(m, Register(7), Imm(if rising then 4 else 0)) == m.r[7] + if rising then 4 else 0;
    One(code, m, Next(Written(m, k, rising), m.pc + 1));
  }

  // ---------------------------------------------------------------- one symbol

  function Flag(r: Registers, bit: nat): nat { if BitOf(r[27], bit) then 1 else 0 }

  /** DELAY_PARITY: two cycles, or three when the flag is set. */
  predicate ParityAt(code: seq<Instruction>, p: int, bit: nat) {
    && bit < 32 && 0 <= p && p + 4 <= |code|
    && code[p] == Branch(BitSet, R(27), Imm(bit), p + 2) && Goes(code[p + 1], p + 4)
    && code[p + 2] == Mov(19, 19) && Goes(code[p + 3], p + 4)
  }

  lemma ParityRuns(code: seq<Instruction>, m: Machine, bit: nat)
    requires Shaped(m) && ParityAt(code, m.pc, bit)
    ensures var n := 2 + Flag(m.r, bit); Reaches(code, m, n, m.(cycles := m.cycles + n, pc := m.pc + 4))
  {
    hide BitOf, Reaches;
    var p := m.pc;
    TestRuns(code, m, BitSet, 27, bit, p + 2);
    assert Taken(BitSet, m.r[27], bit) == BitOf(m.r[27], bit);
    hide Taken;
    if BitOf(m.r[27], bit) {
      var a := Next(m, p + 2);
      MovRuns(code, a, 19, 19);
      assert a.r[19 := a.r[19]] == a.r;
      var b := Next(a, p + 3);
      GoRuns(code, b, p + 4);
      Then(code, m, 1, a, 1, b);
      Then(code, m, 2, b, 1, Next(b, p + 4));
    } else {
      var a := Next(m, p + 1);
      GoRuns(code, a, p + 4);
      Then(code, m, 1, a, 1, Next(a, p + 4));
    }
  }

  /** Half a symbol: the pin write, then a delay of the count in a register and a parity flag. */
  predicate HalfAt(code: seq<Instruction>, p: int, rising: bool, count: nat, parity: nat) {
    && count < 32 && 0 <= p && p + 8 <= |code|
    && code[p] == PinInstruction(rising) && code[p + 1] == Mov(18, count)
    && code[p + 2] == Alu(Sub, R(18), R(18), Imm(1)) && code[p + 3] == Branch(Ne, R(18), Imm(0), p + 2)
    && ParityAt(code, p + 4, parity)
  }

  function HalfCycles(r: Registers, count: nat, parity: nat): nat
    requires count < 32
  {
    4 + 2 * (r[count] as int) + Flag(r, parity)
  }

  function AfterHalf(m: Machine, k: nat, rising: bool, count: nat, parity: nat): Machine
    requires Shaped(m) && k < 3 && count < 32
  {
    Written(m, k, rising).(r := m.r[18 := 0], cycles := m.cycles + HalfCycles(m.r, count, parity), pc := m.pc + 8)
  }

  lemma HalfRuns(code: seq<Instruction>, m: Machine, k: nat, rising: bool, count: nat, parity: nat)
    requires Granted(m, k) && HalfAt(code, m.pc, rising, count, parity) && m.r[count] > 0
    ensures Reaches(code, m, HalfCycles(m.r, count, parity), AfterHalf(m, k, rising, count, parity))
  {
    hide BitOf, Reaches, Within, Written, PinInstruction;
    var p := m.pc;
    var w := Written(m, k, rising);
    assert Shaped(w) && w.r == m.r && w.pc == p && w.cycles == m.cycles by { WrittenShape(m, k, rising); }
    var a := Next(w, p + 1);
    PinWriteRuns(code, m, k, rising);
    var b := Next(a.(r := a.r[18 := a.r[count]]), p + 2);
    MovRuns(code, a, 18, count);
    var c: int := m.r[count];
    var d := b.(r := b.r[18 := 0], cycles := b.cycles + 2 * c, pc := p + 4);
    DelayRuns(code, b, 18);
    var f := Flag(m.r, parity);
    ParityRuns(code, d, parity);
    Then(code, m, 1, a, 1, b);
    Then(code, m, 2, b, 2 * c, d);
    var e := d.(cycles := d.cycles + 2 + f, pc := p + 8);
    Then(code, m, 2 + 2 * c, d, 2 + f, e);
    assert b.r[18 := 0] == m.r[18 := 0];
    assert e == AfterHalf(m, k, rising, count, parity);
  }

  lemma WrittenShape(m: Machine, k: nat, rising: bool)
    requires Shaped(m) && k < 3
    ensures var w := Written(m, k, rising);
            Shaped(w) && w.r == m.r && w.pc == m.pc && w.cycles == m.cycles && w.grants == m.grants
    ensures Written(m, k, rising).events == m.events + [Event(m.cycles, k, Offset(rising), m.r[9], m.pc)]
  {
    hide AndWord, OrWord, Cut;
  }

  /** SEND_BIT. */
  predicate BitAt(code: seq<Instruction>, p: int, bit: nat, zeroLow: nat, oneLow: nat) {
    && bit < 32 && 0 <= p && p + 35 <= |code|
    && code[p] == Branch(BitSet, R(4), Imm(bit), p + 18)
    && HalfAt(code, p + 1, true, 20, 0) && HalfAt(code, p + 9, false, zeroLow, 2) && Goes(code[p + 17], p + 35)
    && HalfAt(code, p + 18, true, 21, 1) && HalfAt(code, p + 26, false, oneLow, 3) && Goes(code[p + 34], p + 35)
  }

  /** The high and low parts of a symbol in cycles, the low without the branches around it. */
  function HighCycles(r: Registers, one: bool): nat {
    if one then HalfCycles(r, 21, 1) else HalfCycles(r, 20, 0)
  }

  function LowCycles(r: Registers, one: bool, zeroLow: nat, oneLow: nat): nat
    requires zeroLow < 32 && oneLow < 32
  {
    if one then HalfCycles(r, oneLow, 3) else HalfCycles(r, zeroLow, 2)
  }

  /** The two writes of one symbol. */
  function SymbolEvents(cycle: nat, k: nat, v: u32, pc: int, one: bool, high: nat): seq<Event> {
    [Event(cycle, k, SET, v, pc + if one then 18 else 1), Event(cycle + high, k, CLEAR, v, pc + if one then 26 else 9)]
  }

  /** What one symbol leaves: its two writes, the delay counter at zero, and the time spent. */
  predicate SymbolSent(m: Machine, k: nat, bit: nat, zeroLow: nat, oneLow: nat, t: Machine)
    requires zeroLow < 32 && oneLow < 32
  {
    var one := BitOf(m.r[4], bit);
    var high, low := HighCycles(m.r, one), LowCycles(m.r, one, zeroLow, oneLow);
    && t.r == m.r[18 := 0] && t.cycles == m.cycles + high + low + 2 && t.pc == m.pc + 35 && t.grants == m.grants
    && t.events == m.events + SymbolEvents(m.cycles + 1, k, m.r[9], m.pc, one, high)
  }

  /** The high and the low part of a symbol. */
  lemma PairRuns(code: seq<Instruction>, m: Machine, k: nat, up: nat, upFlag: nat, down: nat, downFlag: nat) returns (t: Machine)
    requires Granted(m, k) && HalfAt(code, m.pc, true, up, upFlag) && HalfAt(code, m.pc + 8, false, down, downFlag)
    requires m.r[up] > 0 && m.r[down] > 0 && down != 18
    ensures var high, low := HalfCycles(m.r, up, upFlag), HalfCycles(m.r, down, downFlag);
            && Reaches(code, m, high + low, t)
            && t.r == m.r[18 := 0] && t.cycles == m.cycles + high + low && t.pc == m.pc + 16 && t.grants == m.grants
            && t.events == m.events + [Event(m.cycles, k, SET, m.r[9], m.pc), Event(m.cycles + high, k, CLEAR, m.r[9], m.pc + 8)]
  {
    hide BitOf, Reaches, Within, Written, FixedMask, ClearAddress, ParityAt;
    WrittenShape(m, k, true);
    var b := AfterHalf(m, k, true, up, upFlag);
    HalfRuns(code, m, k, true, up, upFlag);
    WrittenShape(b, k, false);
    t := AfterHalf(b, k, false, down, downFlag);
    HalfRuns(code, b, k, false, down, downFlag);
    assert b.r[18 := 0] == m.r[18 := 0];
    Then(code, m, HalfCycles(m.r, up, upFlag), b, HalfCycles(m.r, down, downFlag), t);
  }

  lemma SymbolRuns(code: seq<Instruction>, m: Machine, k: nat, bit: nat, zeroLow: nat, oneLow: nat) returns (n: nat, t: Machine)
    requires Granted(m, k) && BitAt(code, m.pc, bit, zeroLow, oneLow)
    requires zeroLow != 18 && oneLow != 18 && zeroLow < 32 && oneLow < 32
    requires m.r[20] > 0 && m.r[21] > 0 && m.r[zeroLow] > 0 && m.r[oneLow] > 0
    ensures Reaches(code, m, n, t) && SymbolSent(m, k, bit, zeroLow, oneLow, t) && n == t.cycles - m.cycles
  {
    hide BitOf, Reaches, Within, HalfAt, FixedMask, ClearAddress, HalfCycles;
    var p, one := m.pc, BitOf(m.r[4], bit);
    var a := Next(m, p + if one then 18 else 1);
    TestRuns(code, m, BitSet, 4, bit, p + 18);
    assert Taken(BitSet, m.r[4], bit) == one;
    hide Taken;
    var c;
    if one { c := PairRuns(code, a, k, 21, 1, oneLow, 3); } else { c := PairRuns(code, a, k, 20, 0, zeroLow, 2); }
    var high, low := HighCycles(m.r, one), LowCycles(m.r, one, zeroLow, oneLow);
    t := Next(c, p + 35);
    ReachesShape(code, a, high + low, c);
    GoRuns(code, c, p + 35);
    Then(code, m, 1, a, high + low, c);
    Then(code, m, 1 + high + low, c, 1, t);
    n := 1 + high + low + 1;
  }

  // ---------------------------------------------------------------- one pixel

  /** High times of the two symbols and the period of both, in PRU cycles. */
  datatype Profile = Profile(h0: nat, h1: nat, period: nat)

  /** The start-up check of the firmware: every delay count is positive. */
  predicate Feasible(q: Profile) {
    q.h0 >= 6 && q.h1 >= 6 && q.period >= q.h0 + 20 && q.period >= q.h1 + 20 && q.period < 0x1_0000
  }

  function High(q: Profile, one: bool): nat { if one then q.h1 else q.h0 }

  /** The delay counts and parity flags as the firmware loads them. */
  predicate Loaded(r: Registers, q: Profile) {
    && Feasible(q)
    && r[20] == (q.h0 - 4) / 2 && r[21] == (q.h1 - 4) / 2
    && r[22] == (q.period - q.h0 - 6) / 2 && r[23] == (q.period - q.h1 - 6) / 2
    && r[24] == (q.period - q.h0 - 18) / 2 && r[25] == (q.period - q.h1 - 18) / 2
    && (BitOf(r[27], 0) <==> q.h0 % 2 == 1) && (BitOf(r[27], 1) <==> q.h1 % 2 == 1)
    && (BitOf(r[27], 2) <==> (q.period - q.h0) % 2 == 1) && (BitOf(r[27], 3) <==> (q.period - q.h1) % 2 == 1)
  }

  /** The loaded counts give exactly the profile's times, with the branches around them and, for the last
      bit, the twelve cycles of the pixel boundary counted into the low. */
  lemma LoadedCycles(r: Registers, q: Profile, one: bool)
    requires Loaded(r, q)
    ensures HighCycles(r, one) == High(q, one)
    ensures LowCycles(r, one, 22, 23) == q.period - High(q, one) - 2
    ensures LowCycles(r, one, 24, 25) == q.period - High(q, one) - 14
    ensures forall i :: 20 <= i <= 25 ==> r[i] > 0
  {
    hide BitOf;
    DelayCycles(High(q, one), 4);
    DelayCycles(q.period - High(q, one), 6);
    DelayCycles(q.period - High(q, one), 18);
  }

  /** Twice the count, the parity and the instructions around make up the time. */
  lemma DelayCycles(time: int, around: int)
    requires around % 2 == 0
    ensures around + 2 * ((time - around) / 2) + (if time % 2 == 1 then 1 else 0) == time
  {
  }

  function ZeroLow(n: nat): nat { if n == 23 then 24 else 22 }
  function OneLow(n: nat): nat { if n == 23 then 25 else 23 }

  /** The n-th symbol of the unrolled transmitter, most significant bit first. */
  predicate SymbolAt(code: seq<Instruction>, begin: int, n: nat) {
    n < 24 && BitAt(code, begin + 35 * n, 23 - n, ZeroLow(n), OneLow(n))
  }

  /** The cycles of n periods. */
  function Periods(q: Profile, n: nat): nat { n * q.period }

  lemma PeriodsAdd(q: Profile, a: nat, b: nat)
    ensures Periods(q, a + b) == Periods(q, a) + Periods(q, b)
    ensures Periods(q, 1) == q.period && Periods(q, 0) == 0
  {
    Distribute(a, b, q.period);
  }

  /** Symbol i of a repeated colour. */
  predicate SymbolBit(color: u32, i: nat) { BitOf(color, 23 - i % 24) }

  lemma SymbolAgain(color: u32, pixels: nat, i: nat)
    ensures SymbolBit(color, 24 * pixels + i) == SymbolBit(color, i)
  {
    AddMultiple(i, 24, pixels);
  }

  lemma SymbolFirst(color: u32, i: nat)
    requires i < 24
    ensures SymbolBit(color, i) == BitOf(color, 23 - i)
  {
  }

  /** The writes of the first n symbols of a pixel begun at a cycle. */
  function PixelEvents(cycle: nat, k: nat, v: u32, pc: int, color: u32, q: Profile, n: nat): seq<Event>
    requires n <= 24
  {
    if n == 0 then []
    else
      PixelEvents(cycle, k, v, pc, color, q, n - 1) +
      SymbolEvents(cycle + 1 + Periods(q, n - 1), k, v, pc + 35 * (n - 1), BitOf(color, 24 - n), High(q, BitOf(color, 24 - n)))
  }

  predicate SymbolsSent(m: Machine, k: nat, q: Profile, n: nat, t: Machine)
    requires n <= 24
  {
    && t.r == (if n == 0 then m.r else m.r[18 := 0]) && t.pc == m.pc + 35 * n && t.grants == m.grants
    && t.cycles == m.cycles + Periods(q, n) - (if n == 24 then 12 else 0)
    && t.events == m.events + PixelEvents(m.cycles, k, m.r[9], m.pc, m.r[4], q, n)
  }

  lemma {:induction false} SymbolsRun(code: seq<Instruction>, m: Machine, k: nat, q: Profile, n: nat) returns (c: nat, t: Machine)
    requires Granted(m, k) && Loaded(m.r, q) && n <= 24
    requires forall i: nat :: i < n ==> SymbolAt(code, m.pc, i)
    ensures Reaches(code, m, c, t) && SymbolsSent(m, k, q, n, t) && c == t.cycles - m.cycles
  {
    hide Reaches, BitOf, BitAt, Within, SymbolEvents, Loaded, Periods, FixedMask, ClearAddress, HighCycles, LowCycles, Feasible;
    if n == 0 {
      c, t := 0, m;
      Nowhere(code, m);
      PeriodsAdd(q, 0, 0);
    } else {
      var a, u := SymbolsRun(code, m, k, q, n - 1);
      assert SymbolAt(code, m.pc, n - 1);
      var one := BitOf(m.r[4], 24 - n);
      SameCounts(m.r, u.r, q);
      LoadedCycles(u.r, q, one);
      assert Shaped(u) by { ReachesShape(code, m, a, u); }
      var b;
      b, t := SymbolRuns(code, u, k, 24 - n, ZeroLow(n - 1), OneLow(n - 1));
      Then(code, m, a, u, b, t);
      c := a + b;
      PeriodsAdd(q, n - 1, 1);
      assert u.r[18 := 0] == m.r[18 := 0];
    }
  }

  lemma Nowhere(code: seq<Instruction>, m: Machine)
    requires Shaped(m)
    ensures Reaches(code, m, 0, m)
  {
  }

  lemma ReachesShape(code: seq<Instruction>, m: Machine, n: nat, t: Machine)
    requires Reaches(code, m, n, t)
    ensures Shaped(t)
  {
  }

  /** The delay counter is not one of the loaded counts. */
  lemma SameCounts(r: Registers, s: Registers, q: Profile)
    requires Loaded(r, q) && (s == r || s == r[18 := 0])
    ensures Loaded(s, q)
  {
    hide BitOf, Feasible;
  }

  // ---------------------------------------------------------------- the pixel boundary

  /** FINISH_PIN: three cycles whether the endpoint is reached or not. */
  predicate FinishAt(code: seq<Instruction>, p: int, end: nat, mask: nat) {
    && end < 32 && mask < 32 && 0 <= p && p + 5 <= |code|
    && code[p] == Branch(Ne, R(16), Field(R(end)), p + 3)
    && code[p + 1] == Alu(Xor, R(9), R(9), Field(R(mask))) && Goes(code[p + 2], p + 5)
    && code[p + 3] == Mov(19, 19) && code[p + 4] == Mov(19, 19)
  }

  function Finished(r: Registers, end: nat, mask: nat): u32
    requires end < 32 && mask < 32
  {
    if r[16] == r[end] then XorWord(r[9], r[mask]) else r[9]
  }

  lemma FinishRuns(code: seq<Instruction>, m: Machine, end: nat, mask: nat)
    requires Shaped(m) && FinishAt(code, m.pc, end, mask)
    ensures Reaches(code, m, 3, m.(r := m.r[9 := Finished(m.r, end, mask)], cycles := m.cycles + 3, pc := m.pc + 5))
  {
    hide Reaches, XorWord;
    var p := m.pc;
    var t := m.(r := m.r[9 := Finished(m.r, end, mask)], cycles := m.cycles + 3, pc := m.pc + 5);
    var a := Next(m, if m.r[16] == m.r[end] then p + 1 else p + 3);
    CompareRuns(code, m, 16, end, p + 3);
    if m.r[16] == m.r[end] {
      var b := Next(a.(r := t.r), p + 2);
      XorRuns(code, a, mask);
      GoRuns(code, b, p + 5);
      Then(code, m, 1, a, 1, b);
      Then(code, m, 2, b, 1, Next(b, p + 5));
    } else {
      assert m.r[19 := m.r[19]] == m.r && t.r == m.r;
      var b := Next(a, p + 4);
      MovRuns(code, a, 19, 19);
      MovRuns(code, b, 19, 19);
      Then(code, m, 1, a, 1, b);
      Then(code, m, 2, b, 1, Next(b, p + 5));
    }
  }

  lemma CompareRuns(code: seq<Instruction>, m: Machine, x: nat, y: nat, target: int)
    requires Here(code, m) && x < 32 && y < 32 && code[m.pc] == Branch(Ne, R(x), Field(R(y)), target)
    ensures Reaches(code, m, 1, Next(m, if m.r[x] == m.r[y] then m.pc + 1 else target))
  {
    Whole(m.r, x, 0);
    Whole(m.r, y, 0);
    hide Reg;
    One(code, m, Next(m, if m.r[x] == m.r[y] then m.pc + 1 else target));
  }

  lemma XorRuns(code: seq<Instruction>, m: Machine, mask: nat)
    requires Here(code, m) && mask < 32 && code[m.pc] == Alu(Xor, R(9), R(9), Field(R(mask)))
    ensures Reaches(code, m, 1, Next(m.(r := m.r[9 := XorWord(m.r[9], m.r[mask])]), m.pc + 1))
  {
    Whole(m.r, mask, 0);
    Whole(m.r, 9, XorWord(m.r[9], m.r[mask]));
    CutSmall(XorWord(m.r[9], m.r[mask]));
    hide Reg, Put, XorWord, Cut;
    One(code, m, Next(m.(r := m.r[9 := XorWord(m.r[9], m.r[mask])]), m.pc + 1));
  }

  lemma CountRuns(code: seq<Instruction>, m: Machine)
    requires Here(code, m) && code[m.pc] == Alu(Add, R(16), R(16), Imm(1)) && m.r[16] < 0xffff_ffff
    ensures Reaches(code, m, 1, Next(m.(r := m.r[16 := m.r[16] + 1]), m.pc + 1))
  {
    Whole(m.r, 16, m.r[16] + 1);
    CutSmall(m.r[16] + 1);
    hide Reg, Put, Cut;
    One(code, m, Next(m.(r := m.r[16 := m.r[16] + 1]), m.pc + 1));
  }

  lemma JumpRuns(code: seq<Instruction>, m: Machine, target: u32)
    requires Here(code, m) && code[m.pc] == Jump(Imm(target))
    ensures Reaches(code, m, 1, Next(m, target))
  {
    One(code, m, Next(m, target));
  }

  /** PIXEL_BOUNDARY, for a transmitter at `begin`. */
  predicate BoundaryAt(code: seq<Instruction>, begin: u32) {
    var b := begin + 840;
    && begin + 858 <= |code|
    && code[b] == Alu(Add, R(16), R(16), Imm(1))
    && FinishAt(code, b + 1, 10, 13) && FinishAt(code, b + 6, 11, 14) && FinishAt(code, b + 11, 12, 15)
    && code[b + 16] == Branch(Eq, R(9), Imm(0), b + 18) && code[b + 17] == Jump(Imm(begin))
  }

  /** The active mask after the boundary: each endpoint just reached drops out. */
  function NextMask(r: Registers): u32
    requires r[16] < 0xffff_ffff
  {
    var a := r[16 := r[16] + 1];
    var b := a[9 := Finished(a, 10, 13)];
    var c := b[9 := Finished(b, 11, 14)];
    Finished(c, 12, 15)
  }

  lemma BoundaryRuns(code: seq<Instruction>, m: Machine, begin: u32)
    requires Shaped(m) && BoundaryAt(code, begin) && m.pc == begin + 840 && m.r[16] < 0xffff_ffff
    ensures var v := NextMask(m.r);
            var n := if v == 0 then 11 else 12;
            Reaches(code, m, n, m.(r := m.r[16 := m.r[16] + 1][9 := v], cycles := m.cycles + n,
                                   pc := if v == 0 then begin + 858 else begin))
  {
    hide Reaches, XorWord, FinishAt, Finished;
    var p: int := m.pc;
    var a := Next(m.(r := m.r[16 := m.r[16] + 1]), p + 1);
    CountRuns(code, m);
    var b := a.(r := a.r[9 := Finished(a.r, 10, 13)], cycles := a.cycles + 3, pc := p + 6);
    FinishRuns(code, a, 10, 13);
    Then(code, m, 1, a, 3, b);
    var c := b.(r := b.r[9 := Finished(b.r, 11, 14)], cycles := b.cycles + 3, pc := p + 11);
    FinishRuns(code, b, 11, 14);
    Then(code, m, 4, b, 3, c);
    var v := NextMask(m.r);
    var d := c.(r := c.r[9 := v], cycles := c.cycles + 3, pc := p + 16);
    FinishRuns(code, c, 12, 15);
    Then(code, m, 7, c, 3, d);
    assert d.r == m.r[16 := m.r[16] + 1][9 := v];
    TestRuns(code, d, Eq, 9, 0, p + 18);
    var e := Next(d, if v == 0 then p + 18 else p + 17);
    Then(code, m, 10, d, 1, e);
    if v != 0 {
      JumpRuns(code, e, begin);
      Then(code, m, 11, e, 1, Next(e, begin));
    }
  }

  // ---------------------------------------------------------------- which pins are active

  /** The GPIO bits of the three endpoints of a block, -1 where the block has fewer. */
  function PinBit(k: nat, i: nat): int {
    if k == 0 then (if i == 0 then 3 else if i == 1 then 4 else 1)
    else if k == 1 then (if i == 0 then 12 else if i == 1 then 14 else -1)
    else if i == 0 then 26 else -1
  }

  /** Endpoints and pin masks of block k as the firmware loads them; an unused endpoint is zero. */
  predicate PinsLoaded(r: Registers, k: nat) {
    forall i :: 0 <= i < 3 ==> PinLoaded(r, k, i)
  }

  predicate PinLoaded(r: Registers, k: nat, i: nat)
    requires i < 3
  {
    if PinBit(k, i) >= 0 then r[13 + i] == Pow2(PinBit(k, i)) else r[13 + i] == 0 && r[10 + i] == 0
  }

  /** Bit j belongs to an endpoint that has pixels left after x. */
  predicate Wanted(r: Registers, k: nat, x: nat, j: int) {
    || (PinBit(k, 0) == j && r[10] > x)
    || (PinBit(k, 1) == j && r[11] > x)
    || (PinBit(k, 2) == j && r[12] > x)
  }

  predicate ActiveMask(r: Registers, k: nat, x: nat, v: u32) {
    forall j: nat :: j < 32 ==> (BitOf(v, j) <==> Wanted(r, k, x, j))
  }

  lemma MaskBits(mask: u32, bit: int)
    requires mask == if bit >= 0 then Pow2(bit) else 0
    ensures forall j: nat :: j < 32 ==> (BitOf(mask, j) <==> bit == j)
  {
    forall j: nat | j < 32 ensures BitOf(mask, j) <==> bit == j {
      if bit >= 0 { PowerBit(bit, j); } else { ZeroBit(j); }
    }
  }

  /** One FINISH_PIN clears exactly the bit of an endpoint reached at x. */
  lemma FinishedBits(r: Registers, k: nat, i: nat)
    requires i < 3 && PinLoaded(r, k, i) && r[16] > 0
    ensures forall j: nat :: j < 32 ==>
              (BitOf(Finished(r, 10 + i, 13 + i), j) <==> BitOf(r[9], j) != (PinBit(k, i) == j && r[10 + i] == r[16]))
  {
    MaskBits(r[13 + i], PinBit(k, i));
    XorBits(r[9], r[13 + i]);
    hide BitOf, XorWord;
  }

  /** The boundary keeps exactly the pins with pixels left. */
  lemma NextMaskActive(r: Registers, k: nat)
    requires PinsLoaded(r, k) && r[16] < 0xffff_ffff && ActiveMask(r, k, r[16], r[9])
    ensures ActiveMask(r, k, r[16] + 1, NextMask(r))
  {
    var a := r[16 := r[16] + 1];
    var b := a[9 := Finished(a, 10, 13)];
    var c := b[9 := Finished(b, 11, 14)];
    assert PinLoaded(r, k, 0) && PinLoaded(r, k, 1) && PinLoaded(r, k, 2);
    FinishedBits(a, k, 0);
    FinishedBits(b, k, 1);
    FinishedBits(c, k, 2);
    hide BitOf, Finished;
    var x: int := r[16];
    forall j: nat | j < 32 ensures BitOf(NextMask(r), j) <==> Wanted(r, k, x + 1, j) {
      assert BitOf(r[9], j) <==> Wanted(r, k, x, j);
    }
  }

  lemma ActiveWithin(r: Registers, k: nat, x: nat, v: u32)
    requires k < 3 && ActiveMask(r, k, x, v)
    ensures Within(v, FixedMask(k))
  {
    assert BitOf(0x1a, 3) && BitOf(0x1a, 4) && BitOf(0x1a, 1);
    assert BitOf(0x5000, 12) && BitOf(0x5000, 14);
    Pow26();
    hide BitOf;
  }

  lemma Pow26()
    ensures BitOf(0x0400_0000, 26)
  {
    assert Pow2(13) == 0x2000;
    assert Pow2(26) == 0x0400_0000;
  }

  function Max3(r: Registers): u32 { Max(r[10], Max(r[11], r[12])) }

  /** The mask is empty exactly when every endpoint is reached. */
  lemma ActiveZero(r: Registers, k: nat, x: nat, v: u32)
    requires PinsLoaded(r, k) && ActiveMask(r, k, x, v)
    ensures v == 0 <==> Max3(r) <= x
  {
    hide BitOf;
    assert PinLoaded(r, k, 0) && PinLoaded(r, k, 1) && PinLoaded(r, k, 2);
    if Max3(r) <= x {
      forall j: nat | j < 32 ensures BitOf(v, j) == BitOf(0, j) { ZeroBit(j); }
      Pow32();
      SameBits(v, 0, 32);
    } else {
      var i := if r[10] > x then 0 else if r[11] > x then 1 else 2;
      var j := PinBit(k, i);
      assert j >= 0 && Wanted(r, k, x, j);
      assert BitOf(v, j);
      ZeroBit(j);
    }
  }

  // ---------------------------------------------------------------- the waveform of one pin

  /** The writes that move pin bit j: when, and SET or CLEAR. */
  function PinEvents(events: seq<Event>, j: nat): seq<(nat, int)> {
    if events == [] then []
    else
      var e := events[|events| - 1];
      PinEvents(events[..|events| - 1], j) + if BitOf(e.value, j) then [(e.cycle, e.offset)] else []
  }

  lemma {:induction false} PinEventsAdd(a: seq<Event>, b: seq<Event>, j: nat)
    ensures PinEvents(a + b, j) == PinEvents(a, j) + PinEvents(b, j)
  {
    if b == [] {
      assert a + b == a;
    } else {
      assert (a + b)[..|a + b| - 1] == a + b[..|b| - 1];
      PinEventsAdd(a, b[..|b| - 1], j);
    }
  }

  /** The exact waveform of n symbols of a colour, repeated, from cycle t0 on: symbol i rises at its period
      and falls after the width of its bit. */
  function Waveform(t0: nat, color: u32, q: Profile, n: nat): (w: seq<(nat, int)>)
    ensures |w| == 2 * n
  {
    seq(2 * n, i requires 0 <= i < 2 * n => WaveformAt(t0, color, q, i))
  }

  function WaveformAt(t0: nat, color: u32, q: Profile, i: nat): (nat, int) {
    var rise := t0 + Periods(q, i / 2);
    if i % 2 == 0 then (rise, SET) else (rise + High(q, SymbolBit(color, i / 2)), CLEAR)
  }

  lemma WaveformNext(t0: nat, color: u32, q: Profile, n: nat)
    requires n > 0
    ensures var rise := t0 + Periods(q, n - 1);
            Waveform(t0, color, q, n) ==
              Waveform(t0, color, q, n - 1) + [(rise, SET), (rise + High(q, SymbolBit(color, n - 1)), CLEAR)]
  {
    hide BitOf, High, Periods, SymbolBit;
    var k := n - 1;
    Quotient(2 * k, 2, k, 0);
    Quotient(2 * k + 1, 2, k, 1);
    assert WaveformAt(t0, color, q, 2 * k) == (t0 + Periods(q, k), SET);
    assert WaveformAt(t0, color, q, 2 * k + 1) == (t0 + Periods(q, k) + High(q, SymbolBit(color, k)), CLEAR);
    hide WaveformAt;
  }

  lemma {:induction false} WaveformAdd(t0: nat, color: u32, q: Profile, pixels: nat, n: nat)
    ensures Waveform(t0, color, q, 24 * pixels + n) ==
              Waveform(t0, color, q, 24 * pixels) + Waveform(t0 + Periods(q, 24 * pixels), color, q, n)
  {
    var t1 := t0 + Periods(q, 24 * pixels);
    if n == 0 {
      EmptyWaveform(t1, color, q);
    } else {
      hide *;
      WaveformAdd(t0, color, q, pixels, n - 1);
      WaveformNext(t0, color, q, 24 * pixels + n);
      WaveformNext(t1, color, q, n);
      PeriodsAdd(q, 24 * pixels, n - 1);
      SymbolAgain(color, pixels, n - 1);
      assert 24 * pixels + n - 1 == 24 * pixels + (n - 1);
    }
  }

  lemma EmptyWaveform(t0: nat, color: u32, q: Profile)
    ensures Waveform(t0, color, q, 0) == []
  {
  }

  lemma PixelEventsNext(cycle: nat, k: nat, v: u32, pc: int, color: u32, q: Profile, n: nat) returns (a: Event, b: Event)
    requires 0 < n <= 24
    ensures PixelEvents(cycle, k, v, pc, color, q, n) == PixelEvents(cycle, k, v, pc, color, q, n - 1) + [a, b]
    ensures a.value == v == b.value && a.offset == SET && b.offset == CLEAR && a.cycle == cycle + 1 + Periods(q, n - 1)
    ensures b.cycle == a.cycle + High(q, BitOf(color, 24 - n))
  {
    hide BitOf;
    var one := BitOf(color, 24 - n);
    var pair := SymbolEvents(cycle + 1 + Periods(q, n - 1), k, v, pc + 35 * (n - 1), one, High(q, one));
    a, b := pair[0], pair[1];
  }

  /** The writes of one pixel are one waveform of 24 symbols on each of its active pins. */
  lemma {:induction false} PixelWaveform(cycle: nat, k: nat, v: u32, pc: int, color: u32, q: Profile, n: nat, j: nat)
    requires n <= 24
    ensures PinEvents(PixelEvents(cycle, k, v, pc, color, q, n), j) == if BitOf(v, j) then Waveform(cycle + 1, color, q, n) else []
  {
    hide PinEvents, PixelEvents, Waveform, BitOf;
    if n == 0 {
      EmptyWaveform(cycle + 1, color, q);
      NoPixelEvents(cycle, k, v, pc, color, q, j);
    } else {
      PixelWaveform(cycle, k, v, pc, color, q, n - 1, j);
      PixelWaveformNext(cycle, k, v, pc, color, q, n, j);
    }
  }

  lemma NoPixelEvents(cycle: nat, k: nat, v: u32, pc: int, color: u32, q: Profile, j: nat)
    ensures PinEvents(PixelEvents(cycle, k, v, pc, color, q, 0), j) == []
  {
  }

  /** One more symbol. */
  lemma PixelWaveformNext(cycle: nat, k: nat, v: u32, pc: int, color: u32, q: Profile, n: nat, j: nat)
    requires 0 < n <= 24
    requires PinEvents(PixelEvents(cycle, k, v, pc, color, q, n - 1), j) == if BitOf(v, j) then Waveform(cycle + 1, color, q, n - 1) else []
    ensures PinEvents(PixelEvents(cycle, k, v, pc, color, q, n), j) == if BitOf(v, j) then Waveform(cycle + 1, color, q, n) else []
  {
    hide *;
    var a, b := PixelEventsNext(cycle, k, v, pc, color, q, n);
    PinEventsAdd(PixelEvents(cycle, k, v, pc, color, q, n - 1), [a, b], j);
    PairEvents(a, b, v, j);
    WaveformNext(cycle + 1, color, q, n);
    SymbolFirst(color, n - 1);
  }

  lemma PairEvents(a: Event, b: Event, v: u32, j: nat)
    requires a.value == v && b.value == v
    ensures PinEvents([a, b], j) == if BitOf(v, j) then [(a.cycle, a.offset), (b.cycle, b.offset)] else []
  {
    hide BitOf;
    assert [a, b][..1] == [a] && [a][..0] == [];
    assert PinEvents([a], j) == if BitOf(v, j) then [(a.cycle, a.offset)] else [];
  }

  // ---------------------------------------------------------------- the whole stream

  /** The timed section of the firmware at `begin`. */
  predicate TimedAt(code: seq<Instruction>, begin: u32) {
    (forall n: nat :: n < 24 ==> SymbolAt(code, begin, n)) && BoundaryAt(code, begin)
  }

  /** At the start of a pixel: everything loaded, x pixels done, and the mask of the rest not empty. */
  predicate Streaming(m: Machine, k: nat, q: Profile, begin: u32) {
    && Granted(m, k) && Loaded(m.r, q) && PinsLoaded(m.r, k)
    && ActiveMask(m.r, k, m.r[16], m.r[9]) && m.r[9] != 0 && m.pc == begin
  }

  /** From the start of a pixel to the end of the stream: new writes `more`, on every pin a waveform of
      exactly its remaining pixels; 24 periods a pixel, less the final cycle the loop branch would take. */
  predicate Streamed(m: Machine, k: nat, q: Profile, begin: u32, t: Machine, more: seq<Event>)
    requires m.r[16] <= Max3(m.r)
  {
    && t.pc == begin + 858 && t.r[9] == 0 && t.events == m.events + more
    && t.cycles == m.cycles + Periods(q, 24 * (Max3(m.r) - m.r[16])) - 1
    && (forall i :: 0 <= i < 3 && PinBit(k, i) >= 0 ==> PinStreamed(m, k, q, i, more))
  }

  /** What pin i has received: nothing once it was finished, else its remaining pixels. */
  predicate PinStreamed(m: Machine, k: nat, q: Profile, i: nat, more: seq<Event>)
    requires i < 3 && PinBit(k, i) >= 0
  {
    PinEvents(more, PinBit(k, i)) ==
      if m.r[10 + i] > m.r[16] then Waveform(m.cycles + 1, m.r[4], q, 24 * (m.r[10 + i] as int - m.r[16])) else []
  }

  /** One pixel and its boundary. */
  lemma PixelRuns(code: seq<Instruction>, m: Machine, k: nat, q: Profile, begin: u32) returns (n: nat, t: Machine)
    requires Streaming(m, k, q, begin) && TimedAt(code, begin)
    ensures Reaches(code, m, n, t) && m.r[16] < Max3(m.r)
    ensures t.r == m.r[18 := 0][16 := m.r[16] + 1][9 := NextMask(m.r[18 := 0])]
    ensures t.events == m.events + PixelEvents(m.cycles, k, m.r[9], m.pc, m.r[4], q, 24) && t.grants == m.grants
    ensures t.cycles == m.cycles + Periods(q, 24) - (if t.r[9] == 0 then 1 else 0)
    ensures t.pc == if t.r[9] == 0 then begin + 858 else begin
  {
    hide Reaches, SymbolAt, Granted, Loaded, NextMask, PixelEvents, PinsLoaded, ActiveMask;
    ActiveZero(m.r, k, m.r[16], m.r[9]);
    var a, u := SymbolsRun(code, m, k, q, 24);
    ReachesShape(code, m, a, u);
    BoundaryRuns(code, u, begin);
    var v := NextMask(u.r);
    var b := if v == 0 then 11 else 12;
    t := u.(r := u.r[16 := u.r[16] + 1][9 := v], cycles := u.cycles + b, pc := if v == 0 then begin + 858 else begin);
    Then(code, m, a, u, b, t);
    n := a + b;
  }

  /** The state after a pixel, seen from before it: what the next pixel starts from, or the end. */
  lemma PixelEnds(m: Machine, k: nat, q: Profile, begin: u32, t: Machine)
    requires Streaming(m, k, q, begin) && m.r[16] < Max3(m.r) && Shaped(t) && t.grants == m.grants
    requires t.r == m.r[18 := 0][16 := m.r[16] + 1][9 := NextMask(m.r[18 := 0])]
    ensures t.r[9] == 0 <==> t.r[16] == Max3(t.r)
    ensures Max3(t.r) == Max3(m.r) && t.r[4] == m.r[4] && t.r[16] == m.r[16] + 1 && forall i :: 10 <= i <= 15 ==> t.r[i] == m.r[i]
    ensures t.r[9] != 0 && t.pc == begin ==> Streaming(t, k, q, begin)
  {
    var r := m.r[18 := 0];
    SamePins(m.r, r, k);
    NextMaskActive(r, k);
    SamePins(r, t.r, k);
    ActiveZero(t.r, k, t.r[16], t.r[9]);
    ActiveWithin(t.r, k, t.r[16], t.r[9]);
    hide BitOf, NextMask, ActiveMask, Within, FixedMask, ClearAddress, Feasible;
  }

  lemma SamePins(r: Registers, s: Registers, k: nat)
    requires forall i :: 10 <= i <= 15 ==> s[i] == r[i]
    ensures PinsLoaded(r, k) ==> PinsLoaded(s, k)
    ensures forall x: nat, v: u32 :: ActiveMask(r, k, x, v) ==> ActiveMask(s, k, x, v)
  {
    hide BitOf;
    if PinsLoaded(r, k) {
      assert PinLoaded(r, k, 0) && PinLoaded(r, k, 1) && PinLoaded(r, k, 2);
    }
  }

  /** check_wave for every frame: from the start of the timed section, whatever the colour, the lengths and the
      profile, each pin gets exactly its length in pixels, every symbol with exactly the width of its bit and
      every rise exactly one period after the one before, and nothing more. */
  lemma {:induction false} StreamRuns(code: seq<Instruction>, m: Machine, k: nat, q: Profile, begin: u32)
    returns (n: nat, t: Machine, more: seq<Event>)
    requires Streaming(m, k, q, begin) && TimedAt(code, begin)
    ensures m.r[16] < Max3(m.r) && Reaches(code, m, n, t) && Streamed(m, k, q, begin, t, more)
    decreases Max3(m.r) - m.r[16]
  {
    hide Reaches, TimedAt, Granted, Loaded, NextMask, PixelEvents, PinsLoaded, ActiveMask, BitOf, Streaming, PinEvents, Waveform, Periods;
    var a, u := PixelRuns(code, m, k, q, begin);
    ReachesShape(code, m, a, u);
    PixelEnds(m, k, q, begin, u);
    var now := PixelEvents(m.cycles, k, m.r[9], m.pc, m.r[4], q, 24);
    if u.r[9] == 0 {
      n, t, more := a, u, now;
      forall i | 0 <= i < 3 && PinBit(k, i) >= 0 ensures PinStreamed(m, k, q, i, more) {
        LastPixel(m, k, q, begin, i);
      }
    } else {
      var b, rest;
      b, t, rest := StreamRuns(code, u, k, q, begin);
      Then(code, m, a, u, b, t);
      n, more := a + b, now + rest;
      assert t.events == m.events + now + rest;
      assert m.events + now + rest == m.events + (now + rest);
      PeriodsAdd(q, 24, 24 * (Max3(u.r) - u.r[16]));
      forall i | 0 <= i < 3 && PinBit(k, i) >= 0 ensures PinStreamed(m, k, q, i, more) {
        MorePixels(m, k, q, begin, u, i, rest);
      }
    }
  }

  /** Pin i takes part in the pixel exactly when it has pixels left. */
  lemma PinInPixel(m: Machine, k: nat, q: Profile, begin: u32, i: nat)
    requires Streaming(m, k, q, begin) && i < 3 && PinBit(k, i) >= 0
    ensures PinEvents(PixelEvents(m.cycles, k, m.r[9], m.pc, m.r[4], q, 24), PinBit(k, i))
            == if m.r[10 + i] > m.r[16] then Waveform(m.cycles + 1, m.r[4], q, 24) else []
  {
    hide *;
    PixelWaveform(m.cycles, k, m.r[9], m.pc, m.r[4], q, 24, PinBit(k, i));
    PinActive(m, k, q, begin, i);
  }

  lemma PinActive(m: Machine, k: nat, q: Profile, begin: u32, i: nat)
    requires Streaming(m, k, q, begin) && i < 3 && PinBit(k, i) >= 0
    ensures BitOf(m.r[9], PinBit(k, i)) <==> m.r[10 + i] > m.r[16]
  {
    hide BitOf, Granted, Loaded, PinsLoaded;
    assert BitOf(m.r[9], PinBit(k, i)) <==> Wanted(m.r, k, m.r[16], PinBit(k, i));
  }

  lemma LastPixel(m: Machine, k: nat, q: Profile, begin: u32, i: nat)
    requires Streaming(m, k, q, begin) && i < 3 && PinBit(k, i) >= 0 && Max3(m.r) == m.r[16] as int + 1
    ensures PinStreamed(m, k, q, i, PixelEvents(m.cycles, k, m.r[9], m.pc, m.r[4], q, 24))
  {
    hide BitOf, Waveform, PixelEvents, PinEvents, Streaming, PinBit;
    PinInPixel(m, k, q, begin, i);
    assert m.r[10 + i] <= Max3(m.r);
  }

  lemma MorePixels(m: Machine, k: nat, q: Profile, begin: u32, u: Machine, i: nat, rest: seq<Event>)
    requires Streaming(m, k, q, begin) && i < 3 && PinBit(k, i) >= 0 && PinStreamed(u, k, q, i, rest)
    requires u.r[10 + i] == m.r[10 + i] && u.r[16] == m.r[16] as int + 1 && u.r[4] == m.r[4] && u.cycles == m.cycles + Periods(q, 24)
    ensures PinStreamed(m, k, q, i, PixelEvents(m.cycles, k, m.r[9], m.pc, m.r[4], q, 24) + rest)
  {
    hide BitOf, Waveform, PixelEvents, PinEvents, Streaming, PinBit;
    PinInPixel(m, k, q, begin, i);
    var now := PixelEvents(m.cycles, k, m.r[9], m.pc, m.r[4], q, 24);
    MoreWaveform(now, rest, PinBit(k, i), m.cycles + 1, m.r[4], q, m.r[10 + i] as int - m.r[16]);
  }

  /** One pixel and the rest of a pin's waveform. */
  lemma MoreWaveform(now: seq<Event>, rest: seq<Event>, j: nat, t0: nat, color: u32, q: Profile, left: int)
    requires PinEvents(now, j) == if left > 0 then Waveform(t0, color, q, 24) else []
    requires PinEvents(rest, j) == if left > 1 then Waveform(t0 + Periods(q, 24), color, q, 24 * (left - 1)) else []
    ensures PinEvents(now + rest, j) == if left > 0 then Waveform(t0, color, q, 24 * left) else []
  {
    hide BitOf, Waveform, PinEvents;
    PinEventsAdd(now, rest, j);
    if left > 1 {
      WaveformAdd(t0, color, q, 1, 24 * (left - 1));
      assert 24 * 1 + 24 * (left - 1) == 24 * left;
    } else {
      assert PinEvents(now, j) + [] == PinEvents(now, j);
    }
  }

  /** Symbol i of a waveform: a rise, a fall after the width of its bit, and the next rise after one period. */
  predicate SymbolTimed(w: seq<(nat, int)>, color: u32, q: Profile, i: nat)
    requires 2 * i + 1 < |w|
  {
    && w[2 * i].1 == SET && w[2 * i + 1].1 == CLEAR
    && w[2 * i + 1].0 == w[2 * i].0 + High(q, SymbolBit(color, i))
    && (2 * i + 2 < |w| ==> w[2 * i + 2].0 == w[2 * i].0 + q.period)
  }

  /** What check_wave measures on a pin: each high lasts as long as its bit says, and each rise comes exactly
      one period after the one before. */
  lemma WaveformTimes(t0: nat, color: u32, q: Profile, n: nat)
    ensures var w := Waveform(t0, color, q, n);
            forall i :: 0 <= i < n ==> SymbolTimed(w, color, q, i)
  {
    hide SymbolBit, High;
    var w := Waveform(t0, color, q, n);
    forall i | 0 <= i < n ensures SymbolTimed(w, color, q, i) {
      Quotient(2 * i, 2, i, 0);
      Quotient(2 * i + 1, 2, i, 1);
      Quotient(2 * i + 2, 2, i + 1, 0);
      PeriodsAdd(q, i, 1);
      assert w[2 * i] == (t0 + Periods(q, i), SET) && w[2 * i + 1] == (t0 + Periods(q, i) + High(q, SymbolBit(color, i)), CLEAR);
      if i + 1 < n { assert w[2 * i + 2] == (t0 + Periods(q, i + 1), SET); }
      hide Waveform, Periods;
    }
  }

  /** The symbols of the waveform are those the step machine of the firmware records as sent: whole copies of
      the colour, most significant bit first. */
  lemma WaveformIsCopies(t0: nat, color: u32, q: Profile, pixels: nat)
    ensures var w := Waveform(t0, color, q, 24 * pixels);
            && |F.Copies(color, pixels)| == 24 * pixels
            && forall i :: 0 <= i < 24 * pixels ==> w[2 * i + 1].0 == w[2 * i].0 + High(q, F.Copies(color, pixels)[i])
  {
    F.CopiesRepeat(color, pixels);
    WaveformTimes(t0, color, q, 24 * pixels);
    hide BitOf, Waveform;
  }

  /** The mask SEND_GROUP builds before the gate: the pins whose endpoint is not zero. */
  function InitialMask(r: Registers): u32 {
    OrWord(OrWord(if r[10] != 0 then r[13] else 0, if r[11] != 0 then r[14] else 0), if r[12] != 0 then r[15] else 0)
  }

  lemma OrZero(a: u32)
    ensures OrWord(a, 0) == a && OrWord(0, a) == a
  {
    OrBits(a, 0);
    OrBits(0, a);
    forall j: nat | j < 32 ensures !BitOf(0, j) { ZeroBit(j); }
    Pow32();
    hide BitOf, OrWord;
    SameBits(OrWord(a, 0), a, 32);
    SameBits(OrWord(0, a), a, 32);
  }

  /** One pin of SEND_GROUP: skip the OR when its endpoint is zero. */
  predicate IncludeAt(code: seq<Instruction>, p: int, end: nat, mask: nat) {
    && end < 32 && mask < 32 && 0 <= p && p + 2 <= |code|
    && code[p] == Branch(Eq, R(end), Imm(0), p + 2) && code[p + 1] == Alu(Or, R(9), R(9), Field(R(mask)))
  }

  /** r28.w0, the return address of SEND_GROUP. */
  const RETURN_LINK: Code := 156

  /** The head of SEND_GROUP. */
  predicate GroupAt(code: seq<Instruction>, p: int) {
    && 0 <= p && p + 9 <= |code| && code[p] == Ldi(R(9), 0)
    && IncludeAt(code, p + 1, 10, 13) && IncludeAt(code, p + 3, 11, 14) && IncludeAt(code, p + 5, 12, 15)
    && code[p + 7] == Branch(Ne, R(9), Imm(0), p + 9) && code[p + 8] == Jump(Field(RETURN_LINK))
  }

  lemma IncludeRuns(code: seq<Instruction>, m: Machine, p: int, end: nat, mask: nat) returns (n: nat, t: Machine)
    requires Shaped(m) && m.pc == p && IncludeAt(code, p, end, mask)
    ensures Reaches(code, m, n, t) && 1 <= n <= 2
    ensures t == m.(r := m.r[9 := OrWord(m.r[9], if m.r[end] != 0 then m.r[mask] else 0)], cycles := m.cycles + n, pc := p + 2)
  {
    hide Reaches;
    TestRuns(code, m, Eq, end, 0, p + 2);
    if m.r[end] == 0 {
      OrZero(m.r[9]);
      assert m.r[9 := m.r[9]] == m.r;
      n, t := 1, Next(m, p + 2);
    } else {
      var u := Next(m, p + 1);
      t := Next(u.(r := u.r[9 := OrWord(u.r[9], u.r[mask])]), p + 2);
      OrRuns(code, u, mask, t);
      Then(code, m, 1, u, 1, t);
      n := 2;
    }
  }

  lemma OrRuns(code: seq<Instruction>, u: Machine, mask: nat, t: Machine)
    requires Here(code, u) && mask < 32 && code[u.pc] == Alu(Or, R(9), R(9), Field(R(mask)))
    requires t == Next(u.(r := u.r[9 := OrWord(u.r[9], u.r[mask])]), u.pc + 1)
    ensures Reaches(code, u, 1, t)
  {
    Whole(u.r, 9, OrWord(u.r[9], u.r[mask]));
    Whole(u.r, mask, 0);
    CutSmall(OrWord(u.r[9], u.r[mask]));
    hide Reg, Put, OrWord, Cut;
    One(code, u, t);
  }

  /** The head of SEND_GROUP, run from its first instruction: within nine cycles r9 is the mask of the pins
      whose endpoint is not zero and no other register, word or pin has changed; an empty bank returns to the
      caller and any other goes on to announce its gate. */
  lemma GroupRuns(code: seq<Instruction>, m: Machine, p: int, k: nat) returns (n: nat, t: Machine)
    requires Shaped(m) && m.pc == p && GroupAt(code, p) && PinsLoaded(m.r, k)
    ensures Reaches(code, m, n, t) && n <= 9
    ensures t == m.(r := m.r[9 := InitialMask(m.r)], cycles := m.cycles + n,
                    pc := if InitialMask(m.r) == 0 then Reg(m.r, RETURN_LINK) else p + 9)
    ensures ActiveMask(m.r, k, 0, t.r[9]) && (t.r[9] == 0 <==> Max3(m.r) == 0)
  {
    hide *;
    GroupMask(m.r, k);
    var a, d := MaskRuns(code, m, p);
    var b;
    b, t := LeaveRuns(code, d, p, m.r);
    Then(code, m, a, d, b, t);
    n := a + b;
  }

  lemma GroupMask(r: Registers, k: nat)
    requires PinsLoaded(r, k)
    ensures ActiveMask(r, k, 0, InitialMask(r)) && (InitialMask(r) == 0 <==> Max3(r) == 0)
  {
    hide PinsLoaded, ActiveMask, InitialMask, Max3;
    InitialMaskActive(r, k);
    ActiveZero(r, k, 0, InitialMask(r));
  }

  lemma MaskRuns(code: seq<Instruction>, m: Machine, p: int) returns (n: nat, t: Machine)
    requires Shaped(m) && m.pc == p && GroupAt(code, p)
    ensures Reaches(code, m, n, t) && n <= 7 && Here(code, t)
    ensures t == m.(r := m.r[9 := InitialMask(m.r)], cycles := m.cycles + n, pc := p + 7)
  {
    hide Reaches, IncludeAt;
    var a := ClearRuns(code, m);
    var i, b := IncludeRuns(code, a, p + 1, 10, 13);
    Then(code, m, 1, a, i, b);
    var j, c := IncludeRuns(code, b, p + 3, 11, 14);
    Then(code, m, 1 + i, b, j, c);
    var l;
    l, t := IncludeRuns(code, c, p + 5, 12, 15);
    Then(code, m, 1 + i + j, c, l, t);
    n := 1 + i + j + l;
    OrZero(if m.r[10] != 0 then m.r[13] else 0);
    ReachesShape(code, m, n, t);
  }

  lemma LeaveRuns(code: seq<Instruction>, d: Machine, p: int, r: Registers) returns (n: nat, t: Machine)
    requires Here(code, d) && d.pc == p + 7 && GroupAt(code, p) && d.r[28] == r[28]
    ensures Reaches(code, d, n, t) && n <= 2
    ensures t == d.(cycles := d.cycles + n, pc := if d.r[9] == 0 then Reg(r, RETURN_LINK) else p + 9)
  {
    hide Reaches, IncludeAt;
    TestRuns(code, d, Ne, 9, 0, p + 9);
    n, t := 1, Next(d, if d.r[9] != 0 then p + 9 else p + 8);
    if d.r[9] == 0 {
      var u := t;
      ReachesShape(code, d, 1, u);
      t := ReturnRuns(code, u, r);
      Then(code, d, 1, u, 1, t);
      n := 2;
    }
  }

  lemma ClearRuns(code: seq<Instruction>, m: Machine) returns (t: Machine)
    requires Here(code, m) && code[m.pc] == Ldi(R(9), 0)
    ensures Reaches(code, m, 1, t) && t == Next(m.(r := m.r[9 := 0]), m.pc + 1)
  {
    Whole(m.r, 9, 0);
    CutSmall(0);
    hide Reg, Put, Cut;
    t := Next(m.(r := m.r[9 := 0]), m.pc + 1);
    One(code, m, t);
  }

  lemma ReturnRuns(code: seq<Instruction>, m: Machine, r: Registers) returns (t: Machine)
    requires Here(code, m) && code[m.pc] == Jump(Field(RETURN_LINK)) && m.r[28] == r[28]
    ensures Reaches(code, m, 1, t) && t == Next(m, Reg(r, RETURN_LINK))
  {
    assert Reg(m.r, RETURN_LINK) == Reg(r, RETURN_LINK);
    hide Reg;
    t := Next(m, Reg(m.r, RETURN_LINK));
    One(code, m, t);
  }

  lemma InitialMaskActive(r: Registers, k: nat)
    requires PinsLoaded(r, k)
    ensures ActiveMask(r, k, 0, InitialMask(r))
  {
    var a, b, c := if r[10] != 0 then r[13] else 0, if r[11] != 0 then r[14] else 0, if r[12] != 0 then r[15] else 0;
    assert PinLoaded(r, k, 0) && PinLoaded(r, k, 1) && PinLoaded(r, k, 2);
    MaskBits(r[13], PinBit(k, 0));
    MaskBits(r[14], PinBit(k, 1));
    MaskBits(r[15], PinBit(k, 2));
    OrBits(a, b);
    OrBits(OrWord(a, b), c);
    forall j: nat | j < 32 ensures !BitOf(0, j) { ZeroBit(j); }
    hide BitOf, OrWord, PinBit;
  }

  /** The catalogue's profile: 350 ns, 700 ns and 1200 ns at 200 MHz. */
  const WS281X := Profile(70, 140, 240)

  /** On it, the stream of a bank is over more than 600 us of CPU time (at 1 GHz, five cycles to one of the
      PRU's) before the kernel helper's budget for the bank runs out. */
  lemma StreamFitsBudget(m: Machine, k: nat, begin: u32, t: Machine, more: seq<Event>)
    requires m.r[16] == 0 && 0 < Max3(m.r) <= MAX_LENGTH && Streamed(m, k, WS281X, begin, t, more)
    ensures Feasible(WS281X) && 5 * (t.cycles - m.cycles) + T.BANK_GUARD_CYCLES < T.Budget(Max3(m.r))
  {
    hide PinStreamed, Max3;
  }

  // ---------------------------------------------------------------- the code exists

  function Go(target: int): Instruction { Branch(Always, R(0), Imm(0), target) }

  function HalfCell(p: int, rising: bool, count: nat, parity: u32, c: nat): Instruction
    requires count < 32
  {
    match c
    case 0 => PinInstruction(rising)
    case 1 => Mov(18, count)
    case 2 => Alu(Sub, R(18), R(18), Imm(1))
    case 3 => Branch(Ne, R(18), Imm(0), p + 2)
    case 4 => Branch(BitSet, R(27), Imm(parity), p + 6)
    case 5 => Go(p + 8)
    case 6 => Mov(19, 19)
    case _ => Go(p + 8)
  }

  function SymbolCell(p: int, bit: u32, zeroLow: nat, oneLow: nat, c: nat): Instruction
    requires zeroLow < 32 && oneLow < 32
  {
    if c == 0 then Branch(BitSet, R(4), Imm(bit), p + 18)
    else if c < 9 then HalfCell(p + 1, true, 20, 0, c - 1)
    else if c < 17 then HalfCell(p + 9, false, zeroLow, 2, c - 9)
    else if c == 17 then Go(p + 35)
    else if c < 26 then HalfCell(p + 18, true, 21, 1, c - 18)
    else if c < 34 then HalfCell(p + 26, false, oneLow, 3, c - 26)
    else Go(p + 35)
  }

  function FinishCell(p: int, end: nat, mask: nat, c: nat): Instruction
    requires end < 32 && mask < 32
  {
    match c
    case 0 => Branch(Ne, R(16), Field(R(end)), p + 3)
    case 1 => Alu(Xor, R(9), R(9), Field(R(mask)))
    case 2 => Go(p + 5)
    case _ => Mov(19, 19)
  }

  function BoundaryCell(begin: u32, c: nat): Instruction {
    var b := begin + 840;
    if c == 0 then Alu(Add, R(16), R(16), Imm(1))
    else if c < 6 then FinishCell(b + 1, 10, 13, c - 1)
    else if c < 11 then FinishCell(b + 6, 11, 14, c - 6)
    else if c < 16 then FinishCell(b + 11, 12, 15, c - 11)
    else if c == 16 then Branch(Eq, R(9), Imm(0), b + 18)
    else Jump(Imm(begin))
  }

  /** Instruction c of the timed section at `begin`. */
  function TimedCell(begin: u32, c: nat): Instruction {
    if c < 840 then SymbolCell(begin + c / 35 * 35, 23 - c / 35, ZeroLow(c / 35), OneLow(c / 35), c % 35)
    else BoundaryCell(begin, c - 840)
  }

  predicate CellAt(code: seq<Instruction>, begin: u32, c: nat) {
    begin + c < |code| && code[begin + c] == TimedCell(begin, c)
  }

  /** Any program with the timed section in it meets TimedAt. */
  lemma TimedCodeExists(code: seq<Instruction>, begin: u32)
    requires forall c: nat :: c < 858 ==> CellAt(code, begin, c)
    ensures TimedAt(code, begin)
  {
    forall n: nat | n < 24 ensures SymbolAt(code, begin, n) { SymbolCodeExists(code, begin, n); }
    hide SymbolAt, SymbolCell, PinInstruction;
    assert CellAt(code, begin, 840) && CellAt(code, begin, 856) && CellAt(code, begin, 857);
    assert CellAt(code, begin, 841) && CellAt(code, begin, 842) && CellAt(code, begin, 843) && CellAt(code, begin, 844)
        && CellAt(code, begin, 845);
    assert CellAt(code, begin, 846) && CellAt(code, begin, 847) && CellAt(code, begin, 848) && CellAt(code, begin, 849)
        && CellAt(code, begin, 850);
    assert CellAt(code, begin, 851) && CellAt(code, begin, 852) && CellAt(code, begin, 853) && CellAt(code, begin, 854)
        && CellAt(code, begin, 855);
  }

  lemma SymbolCodeExists(code: seq<Instruction>, begin: u32, n: nat)
    requires n < 24 && forall c: nat :: c < 858 ==> CellAt(code, begin, c)
    ensures SymbolAt(code, begin, n)
  {
    hide TimedCell, CellAt, HalfCell, HalfAt;
    SymbolCellAt(code, begin, n, 0);
    HalfCodeExists(code, begin, n, 1, true, 20, 0);
    HalfCodeExists(code, begin, n, 9, false, ZeroLow(n), 2);
    SymbolCellAt(code, begin, n, 17);
    HalfCodeExists(code, begin, n, 18, true, 21, 1);
    HalfCodeExists(code, begin, n, 26, false, OneLow(n), 3);
    SymbolCellAt(code, begin, n, 34);
  }

  lemma SymbolCellAt(code: seq<Instruction>, begin: u32, n: nat, c: nat)
    requires n < 24 && c < 35 && forall i: nat :: i < 858 ==> CellAt(code, begin, i)
    ensures begin + 35 * n + c < |code|
    ensures code[begin + 35 * n + c] == SymbolCell(begin + 35 * n, 23 - n, ZeroLow(n), OneLow(n), c)
  {
    hide SymbolCell, BoundaryCell;
    assert CellAt(code, begin, 35 * n + c);
    assert (35 * n + c) / 35 == n && (35 * n + c) % 35 == c;
  }

  lemma HalfCodeExists(code: seq<Instruction>, begin: u32, n: nat, at: nat, rising: bool, count: nat, parity: u32)
    requires n < 24 && count < 32 && parity < 32 && forall i: nat :: i < 858 ==> CellAt(code, begin, i)
    requires (at == 1 && rising && count == 20 && parity == 0) || (at == 9 && !rising && count == ZeroLow(n) && parity == 2)
          || (at == 18 && rising && count == 21 && parity == 1) || (at == 26 && !rising && count == OneLow(n) && parity == 3)
    ensures HalfAt(code, begin + 35 * n + at, rising, count, parity)
  {
    hide TimedCell, CellAt, PinInstruction;
    SymbolCellAt(code, begin, n, at);
    SymbolCellAt(code, begin, n, at + 1);
    SymbolCellAt(code, begin, n, at + 2);
    SymbolCellAt(code, begin, n, at + 3);
    SymbolCellAt(code, begin, n, at + 4);
    SymbolCellAt(code, begin, n, at + 5);
    SymbolCellAt(code, begin, n, at + 6);
    SymbolCellAt(code, begin, n, at + 7);
  }

  /** And it fits into instruction words, so the theorems are about an image the audit can load. */
  lemma TimedImageExists(begin: u32, c: nat)
    requires c < 858 && begin + 858 <= 0x1_0000
    ensures Encodable(TimedCell(begin, c), begin + c)
    ensures Decode(Encode(TimedCell(begin, c), begin + c), begin + c) == Some(TimedCell(begin, c))
  {
    hide Decode, Encode, SymbolCell, BoundaryCell, Encodable;
    if c < 840 {
      SymbolEncodable(begin + c / 35 * 35, 23 - c / 35, ZeroLow(c / 35), OneLow(c / 35), c % 35);
    } else {
      BoundaryEncodable(begin, c - 840);
    }
    DecodeEncode(TimedCell(begin, c), begin + c);
  }

  lemma HalfEncodable(p: int, rising: bool, count: nat, parity: u32, c: nat)
    requires count < 32 && parity < 32 && c < 8
    ensures Encodable(HalfCell(p, rising, count, parity, c), p + c)
  {
  }

  lemma SymbolEncodable(p: int, bit: u32, zeroLow: nat, oneLow: nat, c: nat)
    requires bit < 32 && zeroLow < 32 && oneLow < 32 && c < 35
    ensures Encodable(SymbolCell(p, bit, zeroLow, oneLow, c), p + c)
  {
    hide HalfCell;
    if 1 <= c < 9 { HalfEncodable(p + 1, true, 20, 0, c - 1); }
    if 9 <= c < 17 { HalfEncodable(p + 9, false, zeroLow, 2, c - 9); }
    if 18 <= c < 26 { HalfEncodable(p + 18, true, 21, 1, c - 18); }
    if 26 <= c < 34 { HalfEncodable(p + 26, false, oneLow, 3, c - 26); }
  }

  lemma BoundaryEncodable(begin: u32, c: nat)
    requires c < 18 && begin + 858 <= 0x1_0000
    ensures Encodable(BoundaryCell(begin, c), begin + 840 + c)
  {
  }
}
