/** The grant and timer routine, as the exact ARM words that kernel/audit_quiet.py demands of the built
    module, decoded as section A8.8 of the ARMv7-A/R Architecture Reference Manual (DDI 0406C) says and
    executed for every behaviour of the cycle counter. Addresses are relative to dld_quiet_bank. */
module GrantRoutine {
  import opened Abi

  const BIT31: u32 := 0x8000_0000
  const BIT30: u32 := 0x4000_0000

  function Sub(a: u32, b: u32): u32 {
    if a >= b then a - b else a - b + 0x1_0000_0000
  }

  predicate Has31(x: u32) { x >= BIT31 }
  predicate Has30(x: u32) { x % BIT31 >= BIT30 }
  function Set31(x: u32): u32 { if Has31(x) then x else x + BIT31 }
  function Set30(x: u32): u32 { if Has30(x) then x else x + BIT30 }

  // ---------------------------------------------------------------- the program

  /** A branch instruction word, by the rule of `branch_word`. */
  function BranchWord(address: int, target: int, condition: u32): u32
    requires condition < 15
  {
    condition * 0x1000_0000 + 0x0a00_0000 + ((target - address - 8) / 4) % 0x100_0000
  }

  const GRANT := 64
  const TIMER_START := GRANT + 12
  const LOOP_BEGIN := GRANT + 16
  const LOOP_END := GRANT + 44
  const OBSERVE := GRANT + 76
  const WARM_FAILED := GRANT + 92

  const ENTRY_WORDS: seq<u32> := [
    0xe92d41f0, 0xe1a06000, 0xe1a07002, 0xe1a08003, 0xe3a00000, 0xe3a02010, 0xe3a03040,
    BranchWord(28, TIMER_START, 14),
    0xe320f000, 0xe320f000, 0xe320f000, 0xe320f000, 0xe320f000, 0xe320f000, 0xe320f000, 0xe320f000]

  const GRANT_WORDS: seq<u32> := [
    0xf57ff04f, 0xe586103c, 0xf57ff04f, 0xee194f1d,
    0xee195f1d, 0xe0455004, 0xe1550002,
    BranchWord(GRANT + 28, LOOP_END, 2),
    0xe2533001, BranchWord(GRANT + 36, LOOP_BEGIN, 1), 0xe3855102,
    0xe3500000, BranchWord(GRANT + 48, OBSERVE, 1), 0xe3150102,
    BranchWord(GRANT + 56, WARM_FAILED, 1), 0xe3a00001,
    0xe1a02007, 0xe1a03008, BranchWord(GRANT + 72, GRANT, 14),
    0xf57ff05f, 0xe5960040, 0xe1a01005, 0xe8bd81f0,
    0xe3a00000, 0xe3851101, 0xe8bd81f0]

  function WordAt(address: nat): u32 {
    if address < 64 then ENTRY_WORDS[address / 4]
    else if address < 168 then GRANT_WORDS[(address - 64) / 4]
    else 0
  }

  // ---------------------------------------------------------------- decoding

  datatype Condition = Eq | Ne | Hs | Lo | Always | OtherCondition

  datatype Instr =
    | MovReg(rd: nat, rm: nat)
    | MovImm(rd: nat, imm: u32)
    | SubReg(rd: nat, rn: nat, rm: nat)
    | SubsImm(rd: nat, rn: nat, imm: u32)
    | OrrImm(rd: nat, rn: nat, imm: u32)
    | CmpReg(rn: nat, rm: nat)
    | CmpImm(rn: nat, imm: u32)
    | TstImm(rn: nat, imm: u32)
    | Branch(condition: Condition, displacement: int)
    | Str(rt: nat, rn: nat, offset: u32)
    | Ldr(rt: nat, rn: nat, offset: u32)
    | Push(registers: u32)
    | Pop(registers: u32)
    | ReadCycleCounter(rt: nat)
    | Barrier
    | Nop
    | Undefined

  function Field(w: u32, low: u32, size: u32): u32
    requires low > 0 && size > 0
  {
    w / low % size
  }

  /** ARMExpandImm: an eight-bit constant rotated right by twice the four-bit rotation. Only the two
      rotations that occur are spelt out; any other decodes as undefined. */
  function ExpandImm(imm12: u32): u32
    requires imm12 < 0x200
  {
    if imm12 < 0x100 then imm12
    else (imm12 - 0x100) / 4 + (imm12 - 0x100) % 4 * 0x4000_0000
  }

  function DecodeCondition(c: u32): Condition {
    if c == 0 then Eq else if c == 1 then Ne else if c == 2 then Hs else if c == 3 then Lo
    else if c == 14 then Always else OtherCondition
  }

  function DecodeDataImmediate(w: u32): Instr {
    var op, rn, rd, imm12 := Field(w, 0x10_0000, 0x20), Field(w, 0x1_0000, 0x10), Field(w, 0x1000, 0x10), w % 0x1000;
    if imm12 >= 0x200 then Undefined
    else if op == 0x1a && rn == 0 then MovImm(rd, ExpandImm(imm12))
    else if op == 0x05 then SubsImm(rd, rn, ExpandImm(imm12))
    else if op == 0x18 then OrrImm(rd, rn, ExpandImm(imm12))
    else if op == 0x15 && rd == 0 then CmpImm(rn, ExpandImm(imm12))
    else if op == 0x11 && rd == 0 then TstImm(rn, ExpandImm(imm12))
    else Undefined
  }

  function DecodeDataRegister(w: u32): Instr {
    var op, rn, rd, rm := Field(w, 0x10_0000, 0x20), Field(w, 0x1_0000, 0x10), Field(w, 0x1000, 0x10), w % 0x10;
    if Field(w, 0x10, 0x100) != 0 then Undefined
    else if op == 0x1a && rn == 0 then MovReg(rd, rm)
    else if op == 0x04 then SubReg(rd, rn, rm)
    else if op == 0x15 && rd == 0 then CmpReg(rn, rm)
    else Undefined
  }

  function Decode(w: u32): Instr {
    var cond := w / 0x1000_0000;
    var class3 := Field(w, 0x200_0000, 8);
    if w == 0xf57ff04f || w == 0xf57ff05f then Barrier
    else if w == 0xe320f000 then Nop
    else if cond == 15 then Undefined
    else if class3 == 5 && Field(w, 0x100_0000, 2) == 0 then
      var imm24 := w % 0x100_0000;
      Branch(DecodeCondition(cond), 4 * (if imm24 < 0x80_0000 then imm24 else imm24 - 0x100_0000) + 8)
    else if cond != 14 then Undefined
    else if class3 == 1 then DecodeDataImmediate(w)
    else if class3 == 0 then DecodeDataRegister(w)
    else if w / 0x10_0000 == 0xe58 then Str(Field(w, 0x1000, 0x10), Field(w, 0x1_0000, 0x10), w % 0x1000)
    else if w / 0x10_0000 == 0xe59 then Ldr(Field(w, 0x1000, 0x10), Field(w, 0x1_0000, 0x10), w % 0x1000)
    else if w / 0x1_0000 == 0xe92d then Push(w % 0x1_0000)
    else if w / 0x1_0000 == 0xe8bd then Pop(w % 0x1_0000)
    else if w / 0x1_0000 == 0xee19 && w % 0x1000 == 0xf1d then ReadCycleCounter(Field(w, 0x1000, 0x10))
    else Undefined
  }

  /** Every branch word jumps to the target it was made for. */
  lemma BranchDecodes(address: nat, target: nat, condition: u32)
    requires condition < 15 && (target - address) % 4 == 0
    requires -0x100_0000 <= target - address - 8 < 0x100_0000
    ensures Decode(BranchWord(address, target, condition)) == Branch(DecodeCondition(condition), target - address)
  {
    var w := BranchWord(address, target, condition);
    var imm24 := ((target - address - 8) / 4) % 0x100_0000;
    assert w / 0x1000_0000 == condition;
    assert w % 0x100_0000 == imm24;
    assert w / 0x200_0000 == condition * 8 + 5;
    assert w / 0x100_0000 == condition * 16 + 10;
    assert Field(w, 0x200_0000, 8) == 5;
    assert Field(w, 0x100_0000, 2) == 0;
    if target - address - 8 >= 0 {
      assert imm24 == (target - address - 8) / 4;
    } else {
      assert imm24 == (target - address - 8) / 4 + 0x100_0000;
    }
  }

  // The routine, word by word (the prologue's padding is never reached).

  lemma StagingDecoded()
    ensures Decode(WordAt(0)) == Push(0x41f0)
    ensures Decode(WordAt(4)) == MovReg(6, 0)
    ensures Decode(WordAt(8)) == MovReg(7, 2)
    ensures Decode(WordAt(12)) == MovReg(8, 3)
  {
    assert WordAt(0) == 0xe92d41f0 && WordAt(4) == 0xe1a06000 && WordAt(8) == 0xe1a07002 && WordAt(12) == 0xe1a08003 by {
      hide Decode;
    }
    hide WordAt, BranchWord;
  }

  lemma WarmupDecoded()
    ensures Decode(WordAt(16)) == MovImm(0, 0)
    ensures Decode(WordAt(20)) == MovImm(2, 16)
    ensures Decode(WordAt(24)) == MovImm(3, 64)
    ensures Decode(WordAt(28)) == Branch(Always, TIMER_START - 28)
    ensures Decode(WordAt(76)) == ReadCycleCounter(4)
  {
    hide Decode, WordAt;
    ConstantsDecoded();
    EnterDecoded();
  }

  lemma ConstantsDecoded()
    ensures Decode(WordAt(16)) == MovImm(0, 0)
    ensures Decode(WordAt(20)) == MovImm(2, 16)
    ensures Decode(WordAt(24)) == MovImm(3, 64)
  {
    assert WordAt(16) == 0xe3a00000 && WordAt(20) == 0xe3a02010 && WordAt(24) == 0xe3a03040 by {
      hide Decode;
    }
    hide WordAt, BranchWord;
  }

  lemma EnterDecoded()
    ensures Decode(WordAt(28)) == Branch(Always, TIMER_START - 28)
    ensures Decode(WordAt(76)) == ReadCycleCounter(4)
  {
    assert WordAt(28) == BranchWord(28, TIMER_START, 14) && WordAt(76) == 0xee194f1d by {
      hide Decode;
    }
    hide WordAt, BranchWord;
    BranchDecodes(28, TIMER_START, 14);
  }

  lemma LoopDecoded()
    ensures Decode(WordAt(80)) == ReadCycleCounter(5)
    ensures Decode(WordAt(84)) == SubReg(5, 5, 4)
    ensures Decode(WordAt(88)) == CmpReg(5, 2)
    ensures Decode(WordAt(92)) == Branch(Hs, LOOP_END - 92)
  {
    hide Decode, WordAt;
    ElapsedDecoded();
    ReachedDecoded();
  }

  lemma ElapsedDecoded()
    ensures Decode(WordAt(80)) == ReadCycleCounter(5)
    ensures Decode(WordAt(84)) == SubReg(5, 5, 4)
  {
    assert WordAt(80) == 0xee195f1d && WordAt(84) == 0xe0455004 by {
      hide Decode;
    }
    hide WordAt, BranchWord;
  }

  lemma ReachedDecoded()
    ensures Decode(WordAt(88)) == CmpReg(5, 2)
    ensures Decode(WordAt(92)) == Branch(Hs, LOOP_END - 92)
  {
    assert WordAt(88) == 0xe1550002 && WordAt(92) == BranchWord(GRANT + 28, LOOP_END, 2) by {
      hide Decode;
    }
    hide WordAt, BranchWord;
    BranchDecodes(GRANT + 28, LOOP_END, 2);
  }

  lemma LoopTailDecoded()
    ensures Decode(WordAt(96)) == SubsImm(3, 3, 1)
    ensures Decode(WordAt(100)) == Branch(Ne, LOOP_BEGIN - 100)
    ensures Decode(WordAt(104)) == OrrImm(5, 5, BIT31)
  {
    assert WordAt(96) == 0xe2533001 && WordAt(100) == BranchWord(GRANT + 36, LOOP_BEGIN, 1) && WordAt(104) == 0xe3855102 by {
      hide Decode;
    }
    hide WordAt, BranchWord;
    BranchDecodes(GRANT + 36, LOOP_BEGIN, 1);
  }

  lemma DecisionDecoded()
    ensures Decode(WordAt(108)) == CmpImm(0, 0)
    ensures Decode(WordAt(112)) == Branch(Ne, OBSERVE - 112)
    ensures Decode(WordAt(116)) == TstImm(5, BIT31)
    ensures Decode(WordAt(120)) == Branch(Ne, WARM_FAILED - 120)
  {
    hide Decode, WordAt;
    PassDecoded();
    FaultDecoded();
  }

  lemma PassDecoded()
    ensures Decode(WordAt(108)) == CmpImm(0, 0)
    ensures Decode(WordAt(112)) == Branch(Ne, OBSERVE - 112)
  {
    assert WordAt(108) == 0xe3500000 && WordAt(112) == BranchWord(GRANT + 48, OBSERVE, 1) by {
      hide Decode;
    }
    hide WordAt, BranchWord;
    BranchDecodes(GRANT + 48, OBSERVE, 1);
  }

  lemma FaultDecoded()
    ensures Decode(WordAt(116)) == TstImm(5, BIT31)
    ensures Decode(WordAt(120)) == Branch(Ne, WARM_FAILED - 120)
  {
    assert WordAt(116) == 0xe3150102 && WordAt(120) == BranchWord(GRANT + 56, WARM_FAILED, 1) by {
      hide Decode;
    }
    hide WordAt, BranchWord;
    BranchDecodes(GRANT + 56, WARM_FAILED, 1);
  }

  lemma ArmingDecoded()
    ensures Decode(WordAt(124)) == MovImm(0, 1)
    ensures Decode(WordAt(128)) == MovReg(2, 7)
    ensures Decode(WordAt(132)) == MovReg(3, 8)
    ensures Decode(WordAt(136)) == Branch(Always, GRANT - 136)
  {
    assert WordAt(124) == 0xe3a00001 && WordAt(128) == 0xe1a02007 && WordAt(132) == 0xe1a03008
        && WordAt(136) == BranchWord(GRANT + 72, GRANT, 14) by {
      hide Decode;
    }
    hide WordAt, BranchWord;
    BranchDecodes(GRANT + 72, GRANT, 14);
  }

  lemma GrantDecoded()
    ensures Decode(WordAt(64)) == Barrier
    ensures Decode(WordAt(68)) == Str(1, 6, 0x3c)
    ensures Decode(WordAt(72)) == Barrier
    ensures Decode(WordAt(76)) == ReadCycleCounter(4)
  {
    assert WordAt(64) == 0xf57ff04f && WordAt(68) == 0xe586103c && WordAt(72) == 0xf57ff04f && WordAt(76) == 0xee194f1d by {
      hide Decode;
    }
    hide WordAt, BranchWord;
  }

  lemma ObserveDecoded()
    ensures Decode(WordAt(140)) == Barrier
    ensures Decode(WordAt(144)) == Ldr(0, 6, 0x40)
    ensures Decode(WordAt(148)) == MovReg(1, 5)
    ensures Decode(WordAt(152)) == Pop(0x81f0)
  {
    assert WordAt(140) == 0xf57ff05f && WordAt(144) == 0xe5960040 && WordAt(148) == 0xe1a01005 && WordAt(152) == 0xe8bd81f0 by {
      hide Decode;
    }
    hide WordAt, BranchWord;
  }

  lemma WarmFailedDecoded()
    ensures Decode(WordAt(156)) == MovImm(0, 0)
    ensures Decode(WordAt(160)) == OrrImm(1, 5, BIT30)
    ensures Decode(WordAt(164)) == Pop(0x81f0)
  {
    assert WordAt(156) == 0xe3a00000 && WordAt(160) == 0xe3851101 && WordAt(164) == 0xe8bd81f0 by {
      hide Decode;
    }
    hide WordAt, BranchWord;
  }

  // ---------------------------------------------------------------- the machine

  datatype MemoryOp = Store(address: int, value: u32) | Load(address: int)

  /** r0..r8 and r14, the two flags the routine tests, the words it has stacked, its data accesses
      outside the stack, how many times it has read the counter, and whether it has returned. */
  datatype Arm = Arm(
    r0: u32, r1: u32, r2: u32, r3: u32, r4: u32, r5: u32, r6: u32, r7: u32, r8: u32, r14: u32,
    zero: bool,
    carry: bool,
    pc: int,
    stack: seq<u32>,
    ops: seq<MemoryOp>,
    samples: nat,
    returned: bool)

  /** What the routine cannot control: the cycle counter at each read and the value of the completion word. */
  datatype World = World(counter: nat -> u32, observed: u32)

  function Get(s: Arm, n: nat): u32 {
    if n == 0 then s.r0 else if n == 1 then s.r1 else if n == 2 then s.r2 else if n == 3 then s.r3
    else if n == 4 then s.r4 else if n == 5 then s.r5 else if n == 6 then s.r6 else if n == 7 then s.r7
    else if n == 8 then s.r8 else s.r14
  }

  function Put(s: Arm, n: nat, v: u32): Arm {
    if n == 0 then s.(r0 := v) else if n == 1 then s.(r1 := v) else if n == 2 then s.(r2 := v) else if n == 3 then s.(r3 := v)
    else if n == 4 then s.(r4 := v) else if n == 5 then s.(r5 := v) else if n == 6 then s.(r6 := v) else if n == 7 then s.(r7 := v)
    else if n == 8 then s.(r8 := v) else s.(r14 := v)
  }

  predicate Holds(s: Arm, c: Condition) {
    match c
    case Eq => s.zero
    case Ne => !s.zero
    case Hs => s.carry
    case Lo => !s.carry
    case _ => true
  }

  function Next(s: Arm): Arm { s.(pc := s.pc + 4) }

  function Compare(s: Arm, a: u32, b: u32): Arm {
    s.(zero := a == b, carry := a >= b)
  }

  predicate Kept(n: nat) { n <= 8 || n == 14 }

  /** The instructions the machine knows: those registers, the two single-bit masks, and the two
      multiple transfers of r4..r8 with lr (pushed) or pc (popped). */
  predicate Known(i: Instr) {
    match i
    case MovReg(rd, rm) => Kept(rd) && Kept(rm)
    case MovImm(rd, _) => Kept(rd)
    case SubReg(rd, rn, rm) => Kept(rd) && Kept(rn) && Kept(rm)
    case SubsImm(rd, rn, _) => Kept(rd) && Kept(rn)
    case OrrImm(rd, rn, imm) => Kept(rd) && Kept(rn) && (imm == BIT30 || imm == BIT31)
    case CmpReg(rn, rm) => Kept(rn) && Kept(rm)
    case CmpImm(rn, _) => Kept(rn)
    case TstImm(rn, imm) => Kept(rn) && (imm == BIT30 || imm == BIT31)
    case Branch(c, _) => !c.OtherCondition?
    case Str(rt, rn, _) => Kept(rt) && Kept(rn)
    case Ldr(rt, rn, _) => Kept(rt) && Kept(rn)
    case Push(list) => list == 0x41f0
    case Pop(list) => list == 0x81f0
    case ReadCycleCounter(rt) => Kept(rt)
    case Undefined => false
    case _ => true
  }

  function Address(base: int, offset: int): int { base + offset }

  /** One instruction; an unknown one leaves the machine where it is. */
  function Execute(s: Arm, w: World, i: Instr): Arm {
    if !Known(i) then s
    else
      match i
      case MovReg(rd, rm) => Next(Put(s, rd, Get(s, rm)))
      case MovImm(rd, imm) => Next(Put(s, rd, imm))
      case SubReg(rd, rn, rm) => Next(Put(s, rd, Sub(Get(s, rn), Get(s, rm))))
      case SubsImm(rd, rn, imm) => Next(Put(Compare(s, Get(s, rn), imm), rd, Sub(Get(s, rn), imm)))
      case OrrImm(rd, rn, imm) => Next(Put(s, rd, if imm == BIT31 then Set31(Get(s, rn)) else Set30(Get(s, rn))))
      case CmpReg(rn, rm) => Next(Compare(s, Get(s, rn), Get(s, rm)))
      case CmpImm(rn, imm) => Next(Compare(s, Get(s, rn), imm))
      case TstImm(rn, imm) => Next(s.(zero := !(if imm == BIT31 then Has31(Get(s, rn)) else Has30(Get(s, rn)))))
      case Branch(c, d) => if Holds(s, c) then s.(pc := s.pc + d) else Next(s)
      case Str(rt, rn, offset) => Next(s.(ops := s.ops + [Store(Address(Get(s, rn), offset), Get(s, rt))]))
      case Ldr(rt, rn, offset) => Next(Put(s.(ops := s.ops + [Load(Address(Get(s, rn), offset))]), rt, w.observed))
      case Push(_) => Next(s.(stack := s.stack + [s.r4, s.r5, s.r6, s.r7, s.r8, s.r14]))
      case Pop(_) =>
        var n := |s.stack| - 6;
        if n < 0 then s
        else
          s.(r4 := s.stack[n], r5 := s.stack[n + 1], r6 := s.stack[n + 2], r7 := s.stack[n + 3], r8 := s.stack[n + 4],
             pc := s.stack[n + 5], stack := s.stack[..n], returned := true)
      case ReadCycleCounter(rt) => Next(Put(s, rt, w.counter(s.samples)).(samples := s.samples + 1))
      case _ => Next(s)
  }

  function Step(s: Arm, w: World): Arm {
    if s.returned || s.pc < 0 then s else Execute(s, w, Decode(WordAt(s.pc)))
  }

  function Steps(s: Arm, w: World, n: nat): Arm
    decreases n
  {
    if n == 0 then s else Steps(Step(s, w), w, n - 1)
  }

  lemma {:induction false} StepsCompose(s: Arm, w: World, m: nat, n: nat)
    ensures Steps(s, w, m + n) == Steps(Steps(s, w, m), w, n)
    decreases m
  {
    hide Step;
    if m == 0 {
    } else {
      StepsCompose(Step(s, w), w, m - 1, n);
      assert m + n - 1 == (m - 1) + n;
    }
  }

  // ---------------------------------------------------------------- what the routine computes

  /** The timing loop: counter reads from index `i` on, measured from `start`, until `target` cycles have
      passed or `left` reads have been spent. Result: elapsed word and the index of the next read. */
  function Timer(counter: nat -> u32, start: u32, i: nat, target: u32, left: nat): (t: (u32, nat))
    requires left > 0
    decreases left
  {
    var e := Sub(counter(i), start);
    if e >= target then (e, i + 1)
    else if left == 1 then (Set31(e), i + 1)
    else Timer(counter, start, i + 1, target, left - 1)
  }

  const WARM_CYCLES: u32 := 16
  const WARM_READS := 64

  datatype Outcome = Outcome(granted: bool, observed: u32, elapsed: u32, samples: nat)

  function Warmup(counter: nat -> u32, i: nat): (u32, nat) {
    Timer(counter, counter(i), i + 1, WARM_CYCLES, WARM_READS)
  }

  /** The routine's result when its first counter read is the i-th: warm up without a grant, then grant
      once, time, and observe once. */
  function Routine(w: World, i: nat, cycles: u32, cap: nat): Outcome
    requires cap > 0
  {
    var (warm, j) := Warmup(w.counter, i);
    if Has31(warm) then Outcome(false, 0, Set30(warm), j)
    else
      var (e, k) := Timer(w.counter, w.counter(j), j + 1, cycles, cap);
      Outcome(true, w.observed, e, k)
  }

  // ---------------------------------------------------------------- the words compute it

  ghost predicate Reaches(s: Arm, w: World, t: Arm) {
    exists n: nat :: Steps(s, w, n) == t
  }

  lemma Here(s: Arm, w: World)
    ensures Reaches(s, w, s)
  {
    assert Steps(s, w, 0) == s;
  }

  /** Extend an execution by the instruction `i` found at its end. */
  lemma Then(s: Arm, w: World, t: Arm, i: Instr) returns (u: Arm)
    requires Reaches(s, w, t) && !t.returned && t.pc >= 0 && Decode(WordAt(t.pc)) == i
    ensures u == Execute(t, w, i) && Reaches(s, w, u)
  {
    u := Step(t, w);
    hide Execute, Decode, WordAt;
    var n: nat :| Steps(s, w, n) == t;
    StepsCompose(s, w, n, 1);
    assert Steps(t, w, 1) == Steps(u, w, 0);
  }

  lemma Join(s: Arm, w: World, t: Arm, u: Arm)
    requires Reaches(s, w, t) && Reaches(t, w, u)
    ensures Reaches(s, w, u)
  {
    var m: nat :| Steps(s, w, m) == t;
    var n: nat :| Steps(t, w, n) == u;
    StepsCompose(s, w, m, n);
  }

  /** Two states agree on everything the routine keeps across a timing loop. */
  predicate SameFrame(s: Arm, t: Arm) {
    && t.r0 == s.r0 && t.r1 == s.r1 && t.r2 == s.r2 && t.r4 == s.r4
    && t.r6 == s.r6 && t.r7 == s.r7 && t.r8 == s.r8 && t.r14 == s.r14
    && t.stack == s.stack && t.ops == s.ops && t.returned == s.returned
  }

  /** One pass of the loop body: either out of the loop or one read fewer left. */
  lemma LoopPass(s: Arm, w: World) returns (t: Arm)
    requires s.pc == LOOP_BEGIN && !s.returned && s.r3 > 0
    ensures Reaches(s, w, t) && SameFrame(s, t) && t.samples == s.samples + 1
    ensures var e := Sub(w.counter(s.samples), s.r4);
            if e >= s.r2 then t.pc == LOOP_END && t.r5 == e
            else if s.r3 == 1 then t.pc == LOOP_END && t.r5 == Set31(e)
            else t.pc == LOOP_BEGIN && t.r3 == s.r3 - 1
  {
    LoopDecoded();
    LoopTailDecoded();
    hide Decode, WordAt, Reaches;
    Here(s, w);
    t := Then(s, w, s, ReadCycleCounter(5));
    t := Then(s, w, t, SubReg(5, 5, 4));
    t := Then(s, w, t, CmpReg(5, 2));
    t := Then(s, w, t, Branch(Hs, LOOP_END - 92));
    if t.pc != LOOP_END {
      t := Then(s, w, t, SubsImm(3, 3, 1));
      t := Then(s, w, t, Branch(Ne, LOOP_BEGIN - 100));
      if s.r3 == 1 {
        t := Then(s, w, t, OrrImm(5, 5, BIT31));
      }
    }
  }

  /** Whatever the counter does, the loop ends, with the elapsed word and the number of reads of `Timer`. */
  lemma {:induction false} LoopComputesTimer(s: Arm, w: World) returns (t: Arm)
    requires s.pc == LOOP_BEGIN && !s.returned && s.r3 > 0
    ensures Reaches(s, w, t) && SameFrame(s, t)
    ensures t.pc == LOOP_END && (t.r5, t.samples) == Timer(w.counter, s.r4, s.samples, s.r2, s.r3)
    decreases s.r3
  {
    hide Reaches;
    t := LoopPass(s, w);
    if t.pc == LOOP_BEGIN {
      var u := t;
      t := LoopComputesTimer(u, w);
      Join(s, w, u, t);
    }
  }

  /** The caller's view on entry: arguments in r0..r3, a return address in lr, nothing done yet. */
  predicate Entry(s: Arm) {
    s.pc == 0 && !s.returned && s.ops == [] && s.r3 > 0
  }

  function Stacked(s: Arm): seq<u32> {
    s.stack + [s.r4, s.r5, s.r6, s.r7, s.r8, s.r14]
  }

  /** From entry to the warm-up loop: arguments staged in r6..r8, registers saved, first counter read. */
  lemma Prologue(s: Arm, w: World) returns (t: Arm)
    requires Entry(s)
    ensures Reaches(s, w, t) && t.pc == LOOP_BEGIN && !t.returned && t.ops == [] && t.samples == s.samples + 1
    ensures t.r0 == 0 && t.r1 == s.r1 && t.r2 == WARM_CYCLES && t.r3 == WARM_READS && t.r4 == w.counter(s.samples)
    ensures t.r6 == s.r0 && t.r7 == s.r2 && t.r8 == s.r3 && t.r14 == s.r14
    ensures t.stack == Stacked(s)
  {
    hide Decode, WordAt, Reaches;
    WarmupDecoded();
    t := Staging(s, w);
    t := Then(s, w, t, MovImm(0, 0));
    t := Then(s, w, t, MovImm(2, 16));
    t := Then(s, w, t, MovImm(3, 64));
    t := Then(s, w, t, Branch(Always, TIMER_START - 28));
    t := Then(s, w, t, ReadCycleCounter(4));
  }

  /** The first four instructions: registers saved, arguments staged. */
  lemma Staging(s: Arm, w: World) returns (t: Arm)
    requires Entry(s)
    ensures Reaches(s, w, t) && t == s.(pc := 16, stack := Stacked(s), r6 := s.r0, r7 := s.r2, r8 := s.r3)
  {
    hide Decode, WordAt, Reaches;
    StagingDecoded();
    Here(s, w);
    t := Then(s, w, s, Push(0x41f0));
    t := Then(s, w, t, MovReg(6, 0));
    t := Then(s, w, t, MovReg(7, 2));
    t := Then(s, w, t, MovReg(8, 3));
  }

  /** The result handed back: the callee-saved registers and the stack as on entry, at the return address. */
  predicate Returned(s: Arm, t: Arm) {
    && t.returned && t.pc == s.r14 && t.stack == s.stack
    && t.r4 == s.r4 && t.r5 == s.r5 && t.r6 == s.r6 && t.r7 == s.r7 && t.r8 == s.r8
  }

  /** After a failed warm-up: no access to the mailbox at all. */
  lemma WithheldExit(s: Arm, w: World, u: Arm) returns (t: Arm)
    requires u.pc == LOOP_END && !u.returned && u.r0 == 0 && Has31(u.r5)
    requires u.stack == Stacked(s)
    ensures Reaches(u, w, t) && Returned(s, t) && t.ops == u.ops && t.samples == u.samples
    ensures t.r0 == 0 && t.r1 == Set30(u.r5)
  {
    DecisionDecoded();
    WarmFailedDecoded();
    hide Decode, WordAt, Reaches;
    Here(u, w);
    t := Then(u, w, u, CmpImm(0, 0));
    t := Then(u, w, t, Branch(Ne, OBSERVE - 112));
    t := Then(u, w, t, TstImm(5, BIT31));
    t := Then(u, w, t, Branch(Ne, WARM_FAILED - 120));
    t := Then(u, w, t, MovImm(0, 0));
    t := Then(u, w, t, OrrImm(1, 5, BIT30));
    t := Then(u, w, t, Pop(0x81f0));
    assert t.stack == s.stack;
  }

  /** After a good warm-up: the one grant store, and the second timing loop started. */
  lemma GrantStore(s: Arm, w: World) returns (t: Arm)
    requires s.pc == LOOP_END && !s.returned && s.r0 == 0 && !Has31(s.r5)
    ensures Reaches(s, w, t) && t.pc == LOOP_BEGIN && !t.returned && t.samples == s.samples + 1
    ensures t.ops == s.ops + [Store(Address(s.r6, 0x3c), s.r1)] && t.stack == s.stack
    ensures t.r0 == 1 && t.r2 == s.r7 && t.r3 == s.r8 && t.r4 == w.counter(s.samples) && t.r6 == s.r6
  {
    DecisionDecoded();
    ArmingDecoded();
    GrantDecoded();
    hide Decode, WordAt, Reaches;
    Here(s, w);
    t := Then(s, w, s, CmpImm(0, 0));
    t := Then(s, w, t, Branch(Ne, OBSERVE - 112));
    t := Then(s, w, t, TstImm(5, BIT31));
    t := Then(s, w, t, Branch(Ne, WARM_FAILED - 120));
    t := Then(s, w, t, MovImm(0, 1));
    t := Then(s, w, t, MovReg(2, 7));
    t := Then(s, w, t, MovReg(3, 8));
    t := Then(s, w, t, Branch(Always, GRANT - 136));
    t := Then(s, w, t, Barrier);
    t := Then(s, w, t, Str(1, 6, 0x3c));
    t := Then(s, w, t, Barrier);
    t := Then(s, w, t, ReadCycleCounter(4));
  }

  /** The single completion load and the return. */
  lemma ObserveExit(s: Arm, w: World, u: Arm) returns (t: Arm)
    requires u.pc == LOOP_END && !u.returned && u.r0 == 1
    requires u.stack == Stacked(s)
    ensures Reaches(u, w, t) && Returned(s, t) && t.ops == u.ops + [Load(Address(u.r6, 0x40))] && t.samples == u.samples
    ensures t.r0 == w.observed && t.r1 == u.r5
  {
    DecisionDecoded();
    ObserveDecoded();
    hide Decode, WordAt, Reaches;
    Here(u, w);
    t := Then(u, w, u, CmpImm(0, 0));
    t := Then(u, w, t, Branch(Ne, OBSERVE - 112));
    t := Then(u, w, t, Barrier);
    t := Then(u, w, t, Ldr(0, 6, 0x40));
    t := Then(u, w, t, MovReg(1, 5));
    t := Then(u, w, t, Pop(0x81f0));
    assert t.stack == s.stack;
  }

  /** The audited words terminate for every counter and compute `Routine`; a grant means exactly one store
      of the ordinal at bank_grant followed by exactly one load of bank_done, no grant means no access. */
  lemma WordsComputeRoutine(s: Arm, w: World) returns (t: Arm)
    requires Entry(s)
    ensures Reaches(s, w, t) && Returned(s, t)
    ensures var o := Routine(w, s.samples, s.r2, s.r3);
            && t.r1 == o.elapsed && t.samples == o.samples && t.r0 == o.observed
            && t.ops == if o.granted then [Store(Address(s.r0, 0x3c), s.r1), Load(Address(s.r0, 0x40))] else []
  {
    hide Reaches, Timer;
    var p := Prologue(s, w);
    var u := LoopComputesTimer(p, w);
    Join(s, w, p, u);
    if Has31(u.r5) {
      t := WithheldExit(s, w, u);
      Join(s, w, u, t);
    } else {
      var g := GrantStore(u, w);
      Join(s, w, u, g);
      var v := LoopComputesTimer(g, w);
      Join(s, w, g, v);
      t := ObserveExit(s, w, v);
      Join(s, w, v, t);
    }
  }

  // ---------------------------------------------------------------- what the result word means

  /** Counter reads i and i + 1 are less than `bound` cycles apart. */
  predicate PacedAt(counter: nat -> u32, i: nat, bound: u32) {
    Sub(counter(i + 1), counter(i)) < bound
  }

  /** The consecutive reads `from` .. `to` - 1 are. */
  predicate PacedBetween(counter: nat -> u32, from: nat, to: nat, bound: u32) {
    forall g: nat :: from <= g < to - 1 ==> PacedAt(counter, g, bound)
  }

  /** The reads of one granted timing loop, from its start value to its last, are so; nothing is said about
      the warm-up before it or about any other run. */
  predicate PacedGrant(counter: nat -> u32, i: nat, cycles: u32, cap: nat, bound: u32)
    requires cap > 0
  {
    var j := Warmup(counter, i).1;
    PacedBetween(counter, j, Timer(counter, counter(j), j + 1, cycles, cap).1, bound)
  }

  /** At most `left` reads; a result without bit 31 reports at least the target; on a paced counter bit 30
      is never set. */
  lemma {:induction false} TimerBounds(counter: nat -> u32, start: u32, i: nat, target: u32, left: nat)
    requires left > 0
    ensures var (e, j) := Timer(counter, start, i, target, left);
            i < j <= i + left && (!Has31(e) ==> e >= target)
    decreases left
  {
    if Sub(counter(i), start) < target && left > 1 {
      TimerBounds(counter, start, i + 1, target, left - 1);
    }
  }

  lemma {:induction false} TimerPaced(counter: nat -> u32, start: u32, i: nat, target: u32, left: nat, bound: u32)
    requires left > 0 && i > 0 && bound <= BIT30 && bound + target <= BIT30 + 1
    requires PacedBetween(counter, i - 1, Timer(counter, start, i, target, left).1, bound)
    requires Sub(counter(i - 1), start) < target || counter(i - 1) == start
    ensures !Has30(Timer(counter, start, i, target, left).0)
    decreases left
  {
    TimerBounds(counter, start, i, target, left);
    assert PacedAt(counter, i - 1, bound);
    var e := Sub(counter(i), start);
    assert e < BIT30;
    if e < target && left > 1 {
      TimerPaced(counter, start, i + 1, target, left - 1, bound);
    }
  }

  /** Without bit 31 in the result the store happened and the requested cycles have passed; a withheld grant
      always carries both bits. */
  lemma ResultFlags(w: World, i: nat, cycles: u32, cap: nat)
    requires cap > 0
    ensures var o := Routine(w, i, cycles, cap);
            && (!Has31(o.elapsed) ==> o.granted && o.elapsed >= cycles)
            && (!o.granted ==> Has30(o.elapsed) && Has31(o.elapsed) && o.observed == 0)
            && i < o.samples <= i + 2 + WARM_READS + cap
  {
    var (warm, j) := Warmup(w.counter, i);
    hide Timer;
    TimerBounds(w.counter, w.counter(i), i + 1, WARM_CYCLES, WARM_READS);
    if !Has31(warm) {
      TimerBounds(w.counter, w.counter(j), j + 1, cycles, cap);
    }
  }

  /** Bit 30 is clear exactly when the store happened. */
  predicate FlagTrue(w: World, i: nat, cycles: u32, cap: nat)
    requires cap > 0
  {
    var o := Routine(w, i, cycles, cap);
    o.granted <==> !Has30(o.elapsed)
  }

  /** It is, if the reads of the granted loop are paced. */
  lemma PacedFlag(w: World, i: nat, cycles: u32, cap: nat, bound: u32)
    requires cap > 0 && bound <= BIT30 && bound + cycles <= BIT30 + 1 && PacedGrant(w.counter, i, cycles, cap, bound)
    ensures FlagTrue(w, i, cycles, cap)
  {
    var (warm, j) := Warmup(w.counter, i);
    hide Timer;
    if !Has31(warm) {
      TimerBounds(w.counter, w.counter(i), i + 1, WARM_CYCLES, WARM_READS);
      TimerPaced(w.counter, w.counter(j), j + 1, cycles, cap, bound);
    }
  }

  /** The longest budget the helper ever asks for. */
  const LONGEST: u32 := 10_000_000

  /** Two reads of the granted loop: one just short of the target, the next at 2^30. */
  function Jump(cycles: u32): World
    requires 0 < cycles <= LONGEST
  {
    World((k: nat) => if k == 0 then 0 else if k <= 2 then 16 else if k == 3 then 15 + cycles else 16 + BIT30, 0)
  }

  lemma JumpAliases(cycles: u32, cap: nat, bound: u32)
    requires 0 < cycles <= LONGEST && cap > 1 && bound + cycles > BIT30 + 1
    ensures PacedGrant(Jump(cycles).counter, 0, cycles, cap, bound) && !FlagTrue(Jump(cycles), 0, cycles, cap)
    ensures Routine(Jump(cycles), 0, cycles, cap) == Outcome(true, 0, BIT30, 5)
  {
    var w := Jump(cycles);
    var c := w.counter;
    assert c(0) == 0 && c(1) == 16 && c(2) == 16 && c(3) == 15 + cycles && c(4) == 16 + BIT30;
    assert Timer(c, c(0), 1, WARM_CYCLES, WARM_READS) == (16, 2);
    assert Timer(c, c(2), 4, cycles, cap - 1) == (BIT30, 5);
    assert Timer(c, c(2), 3, cycles, cap) == (BIT30, 5);
    assert PacedAt(c, 2, bound) && PacedAt(c, 3, bound);
  }

  /** The exact condition on the pace of the counter under which bit 30 can be trusted: at most 2^30 minus the
      requested cycles between two reads of the granted loop. Any larger pace admits a counter on which a
      stored grant reads as withheld. */
  lemma FlagExact(cycles: u32, cap: nat, bound: u32)
    requires 0 < cycles <= LONGEST && cap > 1
    ensures (forall w: World, i: nat :: PacedGrant(w.counter, i, cycles, cap, bound) ==> FlagTrue(w, i, cycles, cap))
            <==> bound + cycles <= BIT30 + 1
  {
    hide PacedGrant, FlagTrue;
    if bound + cycles <= BIT30 + 1 {
      forall w: World, i: nat | PacedGrant(w.counter, i, cycles, cap, bound) ensures FlagTrue(w, i, cycles, cap) {
        PacedFlag(w, i, cycles, cap, bound);
      }
    } else {
      JumpAliases(cycles, cap, bound);
    }
  }

  /** A counter that does not move withholds the grant: the warm-up spends its 64 reads. */
  lemma {:induction false} FrozenTimer(counter: nat -> u32, start: u32, i: nat, target: u32, left: nat)
    requires left > 0 && target > 0
    requires forall k: nat {:trigger counter(k)} :: counter(k) == start
    ensures Has31(Timer(counter, start, i, target, left).0)
    decreases left
  {
    assert Sub(counter(i), start) == 0;
    if left > 1 {
      FrozenTimer(counter, start, i + 1, target, left - 1);
    }
  }

  lemma FrozenCounterWithholds(w: World, i: nat, cycles: u32, cap: nat)
    requires cap > 0
    requires forall k: nat {:trigger w.counter(k)} :: w.counter(k) == w.counter(i)
    ensures !Routine(w, i, cycles, cap).granted
  {
    FrozenTimer(w.counter, w.counter(i), i + 1, WARM_CYCLES, WARM_READS);
  }

  /** For instance, at the budget of a bank of 300 pixels and the routine's iteration cap: a stored grant looks
      withheld, and no timer fault betrays it. */
  lemma JumpAliasesWithheld()
    ensures exists w: World :: var o := Routine(w, 0, 9_240_000, 30_000_000);
              o.granted && Has30(o.elapsed) && !Has31(o.elapsed)
  {
    JumpAliases(9_240_000, 30_000_000, BIT30);
  }
}
