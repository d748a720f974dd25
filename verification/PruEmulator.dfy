/** The instruction-level model of tests/pru_audit.py: registers with overlapping sub-fields, RAM, GPIO and
    the cycle counter, and the shortcut the audit takes over delay loops. `Plain` is the instruction
    semantics without the shortcut, `Fast` the audited one; the theorems say that they agree on every run. */
module PruEmulator {
  import opened Abi
  import opened Arithmetic
  import opened Wrappers

  type Registers = r: seq<u32> | |r| == 32 witness seq(32, i => 0)

  // ---------------------------------------------------------------- registers and their sub-fields

  function Join(a: byte, b: byte, c: byte, d: byte): u32 {
    a + 0x100 * (b + 0x100 * (c + 0x100 * d))
  }

  function D0(x: u32): byte { x % 0x100 }
  function D1(x: u32): byte { x / 0x100 % 0x100 }
  function D2(x: u32): byte { x / 0x100 / 0x100 % 0x100 }
  function D3(x: u32): byte { x / 0x100 / 0x100 / 0x100 }

  lemma JoinDigits(x: u32)
    ensures Join(D0(x), D1(x), D2(x), D3(x)) == x
  {
  }

  lemma DigitsJoin(a: byte, b: byte, c: byte, d: byte)
    ensures var x := Join(a, b, c, d); D0(x) == a && D1(x) == b && D2(x) == c && D3(x) == d
  {
    var x := Join(a, b, c, d);
    assert x / 0x100 == b + 0x100 * (c + 0x100 * d);
    assert x / 0x100 / 0x100 == c + 0x100 * d;
  }

  /** What a field code names within its register: a byte, a halfword at byte 0, 1 or 2, or all of it. */
  datatype Part = B0 | B1 | B2 | B3 | H0 | H1 | H2 | W

  /** Field codes as the instructions encode them: the register in the low five bits. */
  type Code = c: int | 0 <= c < 256

  function Index(c: Code): (n: nat)
    ensures n < 32
  {
    c % 32
  }

  function PartOf(c: Code): Part {
    match c / 32
    case 0 => B0 case 1 => B1 case 2 => B2 case 3 => B3
    case 4 => H0 case 5 => H1 case 6 => H2
    case _ => W
  }

  /** One more than the largest value a part can hold. */
  function Span(p: Part): int {
    match p
    case W => 0x1_0000_0000
    case H0 => 0x1_0000 case H1 => 0x1_0000 case H2 => 0x1_0000
    case _ => 0x100
  }

  /** The bytes of the register a part covers. */
  function Bytes(p: Part): set<int> {
    match p
    case B0 => {0} case B1 => {1} case B2 => {2} case B3 => {3}
    case H0 => {0, 1} case H1 => {1, 2} case H2 => {2, 3}
    case W => {0, 1, 2, 3}
  }

  function Get(x: u32, p: Part): u32 {
    match p
    case B0 => D0(x) case B1 => D1(x) case B2 => D2(x) case B3 => D3(x)
    case H0 => Join(D0(x), D1(x), 0, 0) case H1 => Join(D1(x), D2(x), 0, 0) case H2 => Join(D2(x), D3(x), 0, 0)
    case W => x
  }

  function With(x: u32, p: Part, v: u32): u32 {
    match p
    case B0 => Join(D0(v), D1(x), D2(x), D3(x))
    case B1 => Join(D0(x), D0(v), D2(x), D3(x))
    case B2 => Join(D0(x), D1(x), D0(v), D3(x))
    case B3 => Join(D0(x), D1(x), D2(x), D0(v))
    case H0 => Join(D0(v), D1(v), D2(x), D3(x))
    case H1 => Join(D0(x), D0(v), D1(v), D3(x))
    case H2 => Join(D0(x), D1(x), D0(v), D1(v))
    case W => v
  }

  lemma WithDigits(x: u32, p: Part, v: u32)
    ensures var y := With(x, p, v);
            && D0(y) == (if p.B0? || p.H0? || p.W? then D0(v) else D0(x))
            && D1(y) == (if p.B1? || p.H1? then D0(v) else if p.H0? || p.W? then D1(v) else D1(x))
            && D2(y) == (if p.B2? || p.H2? then D0(v) else if p.H1? then D1(v) else if p.W? then D2(v) else D2(x))
            && D3(y) == (if p.B3? then D0(v) else if p.H2? then D1(v) else if p.W? then D3(v) else D3(x))
  {
    forall a: byte, b: byte, c: byte, d: byte
      ensures var x := Join(a, b, c, d); D0(x) == a && D1(x) == b && D2(x) == c && D3(x) == d
    {
      DigitsJoin(a, b, c, d);
    }
    hide Join, D0, D1, D2, D3;
  }

  lemma LowDigits(v: u32)
    ensures D0(v) == v % 0x100 && Join(D0(v), D1(v), 0, 0) == v % 0x1_0000
  {
  }

  /** A field reads back what was put into it, cut to its width. */
  lemma GetWith(x: u32, p: Part, v: u32)
    ensures Get(With(x, p, v), p) == v % Span(p)
  {
    WithDigits(x, p, v);
    LowDigits(v);
    hide Join, D0, D1, D2, D3;
  }

  /** The second of two writes to a field hides the first. */
  lemma WithWith(x: u32, p: Part, v: u32, w: u32)
    ensures With(With(x, p, v), p, w) == With(x, p, w)
  {
    WithDigits(x, p, v);
    hide Join, D0, D1, D2, D3;
  }

  lemma SmallDigit(a: byte)
    ensures D0(a) == a
  {
  }

  lemma WithSame(x: u32, p: Part)
    ensures With(x, p, Get(x, p)) == x
  {
    JoinDigits(x);
    DigitsJoin(D0(x), D1(x), 0, 0);
    DigitsJoin(D1(x), D2(x), 0, 0);
    DigitsJoin(D2(x), D3(x), 0, 0);
    SmallDigit(D0(x));
    SmallDigit(D1(x));
    SmallDigit(D2(x));
    SmallDigit(D3(x));
    hide Join, D0, D1, D2, D3;
  }

  /** Writing one field leaves every field without a common byte alone. */
  lemma GetWithOther(x: u32, p: Part, v: u32, q: Part)
    requires Bytes(p) !! Bytes(q)
    ensures Get(With(x, p, v), q) == Get(x, q)
  {
    WithDigits(x, p, v);
    assert 0 !in Bytes(p) || 0 !in Bytes(q);
    assert 1 !in Bytes(p) || 1 !in Bytes(q);
    assert 2 !in Bytes(p) || 2 !in Bytes(q);
    assert 3 !in Bytes(p) || 3 !in Bytes(q);
    hide Join, D0, D1, D2, D3;
  }

  function Cut(v: int): u32 { v % 0x1_0000_0000 }

  function Reg(r: Registers, c: Code): u32 {
    Get(r[Index(c)], PartOf(c))
  }

  function Put(r: Registers, c: Code, v: int): Registers {
    r[Index(c) := With(r[Index(c)], PartOf(c), Cut(v))]
  }

  /** The frame laws of register fields: what was put is read back modulo the field's width; a second put
      hides the first; putting back what is there changes nothing; and fields of other registers, or
      without a common byte, stay. */
  lemma PutLaws(r: Registers, c: Code, v: int, w: int)
    ensures Reg(Put(r, c, v), c) == v % Span(PartOf(c))
    ensures Put(Put(r, c, v), c, w) == Put(r, c, w)
    ensures Put(r, c, Reg(r, c)) == r
    ensures forall d: Code :: Index(d) != Index(c) || Bytes(PartOf(c)) !! Bytes(PartOf(d)) ==> Reg(Put(r, c, v), d) == Reg(r, d)
  {
    hide Get, With, Bytes, PartOf, Span, Cut, Index;
    var x, p := r[Index(c)], PartOf(c);
    CutSpan(v, p);
    GetWith(x, p, Cut(v));
    WithWith(x, p, Cut(v), Cut(w));
    WithSame(x, p);
    CutSmall(Reg(r, c));
    forall d: Code | Index(d) != Index(c) || Bytes(PartOf(c)) !! Bytes(PartOf(d))
      ensures Reg(Put(r, c, v), d) == Reg(r, d)
    {
      if Index(d) == Index(c) { GetWithOther(x, p, Cut(v), PartOf(d)); }
    }
  }

  lemma CutSmall(v: u32)
    ensures Cut(v) == v
  {
  }

  lemma CutSpan(v: int, p: Part)
    ensures Cut(v) % Span(p) == v % Span(p)
  {
    var q := v / 0x1_0000_0000;
    AddMultiple(Cut(v), 0x100, q * 0x100_0000);
    AddMultiple(Cut(v), 0x1_0000, q * 0x1_0000);
    assert v == Cut(v) + q * 0x100_0000 * 0x100 == Cut(v) + q * 0x1_0000 * 0x1_0000;
  }

  /** In the arithmetic of the source: the field's old value is masked out and the new one shifted in. */
  lemma WithArithmetic(x: u32, p: Part, v: u32)
    ensures With(x, p, v) == x - Get(x, p) * Unit(p) + v % Span(p) * Unit(p)
  {
    JoinDigits(x);
    LowDigits(v);
    hide D0, D1, D2, D3;
  }

  function Unit(p: Part): int {
    match p
    case B1 => 0x100 case H1 => 0x100
    case B2 => 0x1_0000 case H2 => 0x1_0000
    case B3 => 0x100_0000
    case _ => 1
  }

  // ---------------------------------------------------------------- the machine

  datatype AluOp = Add | Sub | Lsl | Lsr | And | Or | Xor | Not | Clr | Set
  datatype Test = Lt | Eq | Le | Gt | Ne | Ge | Always | BitClear | BitSet
  datatype Operand = Imm(value: u32) | Field(code: Code)
  datatype Base = Table(entry: int) | Register(index: int)

  datatype Instruction =
    | Ldi(dst: Code, value: u32)
    | Alu(op: AluOp, dst: Code, src: Code, operand: Operand)
    | Branch(test: Test, src: Code, operand: Operand, target: int)
    | Jump(operand: Operand)
    | Call(dst: Code, operand: Operand)
    | Load(base: Base, first: nat, operand: Operand, count: nat)
    | Store(base: Base, first: nat, operand: Operand, count: nat)
    | Halt

  function AluNumber(op: AluOp): nat {
    match op
    case Add => 0 case Sub => 2 case Lsl => 4 case Lsr => 5 case And => 8 case Or => 9 case Xor => 10 case Not => 11
    case Clr => 14 case Set => 15
  }

  function AluOf(n: nat): Option<AluOp> {
    match n
    case 0 => Some(Add) case 2 => Some(Sub) case 4 => Some(Lsl) case 5 => Some(Lsr) case 8 => Some(And) case 9 => Some(Or)
    case 10 => Some(Xor) case 11 => Some(Not) case 14 => Some(Clr) case 15 => Some(Set)
    case _ => None
  }

  function TestNumber(t: Test): nat {
    match t
    case Lt => 9 case Eq => 10 case Le => 11 case Gt => 12 case Ne => 13 case Ge => 14 case Always => 15
    case BitClear => 25 case BitSet => 26
  }

  function TestOf(n: nat): Option<Test> {
    match n
    case 9 => Some(Lt) case 10 => Some(Eq) case 11 => Some(Le) case 12 => Some(Gt) case 13 => Some(Ne) case 14 => Some(Ge)
    case 15 => Some(Always) case 25 => Some(BitClear) case 26 => Some(BitSet)
    case _ => None
  }

  function OperandOf(b: byte, immediate: bool): Operand { if immediate then Imm(b) else Field(b) }

  function BurstOf(high: int, base: int, first: nat, o: Operand, count: nat): Option<Instruction> {
    var b := if high < 14 then Table(base) else Register(base);
    if count >= 124 then None
    else if high == 9 || high == 15 then Some(Load(b, first, o, count + 1))
    else Some(Store(b, first, o, count + 1))
  }

  /** decode, on the four bytes of an instruction word; None for words the audit does not know. */
  function DecodeBytes(a: byte, b: byte, c: byte, d: byte, pc: int): Option<Instruction> {
    var immediate := d % 2 == 1;
    if TestOf(d / 8).Some? then
      var far: int := a + d / 2 % 4 * 0x100;
      Some(Branch(TestOf(d / 8).value, b, OperandOf(c, immediate), pc + if far >= 0x200 then far - 0x400 else far))
    else if d / 16 in {8, 9, 14, 15} then
      var count: int := d / 2 % 8 * 16 + b / 32 * 2 + a / 128;
      BurstOf(d / 16, b % 32, a % 32 * 4 + a / 32 % 4, OperandOf(c, immediate), count)
    else if d == 0x24 then Some(Ldi(a, b + 0x100 * (c as int)))
    else if d / 2 == 16 || d / 2 == 17 then
      var target := if immediate then Imm(b + 0x100 * (c as int)) else Field(c);
      Some(if d / 2 == 16 then Jump(target) else Call(a, target))
    else if d / 2 == 21 then Some(Halt)
    else if AluOf(d / 2).Some? then Some(Alu(AluOf(d / 2).value, a, b, OperandOf(c, immediate)))
    else None
  }

  function Decode(word: u32, pc: int): Option<Instruction> {
    DecodeBytes(D0(word), D1(word), D2(word), D3(word), pc)
  }

  predicate SmallOperand(o: Operand) { o.Imm? ==> o.value < 0x100 }
  predicate WideOperand(o: Operand) { o.Imm? ==> o.value < 0x1_0000 }

  /** What fits into an instruction word at pc. */
  predicate Encodable(i: Instruction, pc: int) {
    match i
    case Ldi(_, v) => v < 0x1_0000
    case Alu(_, _, _, o) => SmallOperand(o)
    case Branch(_, _, o, target) => SmallOperand(o) && -0x200 <= target - pc < 0x200
    case Jump(o) => WideOperand(o)
    case Call(_, o) => WideOperand(o)
    case Load(base, first, o, count) => BurstFits(base, first, o, count)
    case Store(base, first, o, count) => BurstFits(base, first, o, count)
    case Halt => true
  }

  predicate BurstFits(base: Base, first: nat, o: Operand, count: nat) {
    && SmallOperand(o) && first < 128 && 1 <= count <= 124
    && match base
       case Table(n) => 0 <= n < 32
       case Register(n) => 0 <= n < 32
  }

  function OperandByte(o: Operand): byte
    requires SmallOperand(o)
  {
    match o
    case Imm(v) => v
    case Field(c) => c
  }

  function Bit(o: Operand): nat { if o.Imm? then 1 else 0 }

  /** The four bytes of the word for an instruction. */
  function EncodeBytes(i: Instruction, pc: int): (byte, byte, byte, byte)
    requires Encodable(i, pc)
  {
    match i
    case Ldi(dst, v) => (dst, v % 0x100, v / 0x100, 0x24)
    case Alu(op, dst, src, o) => (dst, src, OperandByte(o), 2 * AluNumber(op) + Bit(o))
    case Branch(test, src, o, target) =>
      var far := (target - pc) % 0x400;
      (far % 0x100, src, OperandByte(o), 8 * TestNumber(test) + 2 * (far / 0x100) + Bit(o))
    case Jump(o) => if o.Imm? then (0, o.value % 0x100, o.value / 0x100, 33) else (0, 0, o.code, 32)
    case Call(dst, o) => if o.Imm? then (dst, o.value % 0x100, o.value / 0x100, 35) else (dst, 0, o.code, 34)
    case Load(base, first, o, count) => BurstBytes(base, first, o, count, true)
    case Store(base, first, o, count) => BurstBytes(base, first, o, count, false)
    case Halt => (0, 0, 0, 42)
  }

  function BurstBytes(base: Base, first: nat, o: Operand, count: nat, load: bool): (byte, byte, byte, byte)
    requires BurstFits(base, first, o, count)
  {
    var n := count - 1;
    var index := match base case Table(k) => k case Register(k) => k;
    (first / 4 + 32 * (first % 4) + 128 * (n % 2), index + 32 * (n / 2 % 8), OperandByte(o),
     (if base.Table? then 0x80 else 0xe0) + (if load then 0x10 else 0) + 2 * (n / 16) + Bit(o))
  }

  function Encode(i: Instruction, pc: int): u32
    requires Encodable(i, pc)
  {
    var (a, b, c, d) := EncodeBytes(i, pc);
    Join(a, b, c, d)
  }

  lemma LowByte(x: nat, y: nat, z: nat)
    requires x < 32 && y < 4 && z < 2
    ensures var a := x + 32 * y + 128 * z; a % 32 == x && a / 32 % 4 == y && a / 128 == z
  {
    Quotient(x + 32 * y + 128 * z, 32, y + 4 * z, x);
    Quotient(y + 4 * z, 4, z, y);
  }

  lemma HighByte(x: nat, y: nat, z: nat)
    requires x < 16 && y < 8 && z < 2
    ensures var d := 16 * x + 2 * y + z; d / 16 == x && d / 2 % 8 == y && d % 2 == z && d / 8 == 2 * x + y / 4
  {
    var d := 16 * x + 2 * y + z;
    Quotient(d, 16, x, 2 * y + z);
    Quotient(d, 2, 8 * x + y, z);
    Quotient(8 * x + y, 8, x, y);
    Quotient(d, 8, 2 * x + y / 4, 2 * (y % 4) + z);
  }

  lemma CountBits(n: nat)
    requires n < 128
    ensures n / 16 < 8 && n == n / 16 * 16 + n / 2 % 8 * 2 + n % 2
  {
    Quotient(n / 2, 8, n / 16, n / 2 - n / 16 * 8);
  }

  /** The fields of a burst word are where decode looks for them. */
  lemma BurstFields(base: Base, first: nat, o: Operand, count: nat, load: bool)
    requires BurstFits(base, first, o, count)
    ensures var (a, b, c, d) := BurstBytes(base, first, o, count, load);
            var index := match base case Table(k) => k case Register(k) => k;
            && a % 32 * 4 + a / 32 % 4 == first && b % 32 == index && c == OperandByte(o)
            && d / 2 % 8 * 16 + b / 32 * 2 + a / 128 == count - 1
            && d / 16 == (if base.Table? then 8 else 14) + (if load then 1 else 0)
            && d % 2 == Bit(o) && d / 8 >= 16 && d / 8 != 25 && d / 8 != 26
  {
    hide Bit, OperandByte;
    var n := count - 1;
    var index := match base case Table(k) => k case Register(k) => k;
    CountBits(n);
    LowByte(first / 4, first % 4, n % 2);
    Quotient(index + 32 * (n / 2 % 8), 32, n / 2 % 8, index);
    var x := (if base.Table? then 8 else 14) + if load then 1 else 0;
    assert Bit(o) < 2 by { BitSmall(o); }
    HighByte(x, n / 16, Bit(o));
    assert (if base.Table? then 0x80 else 0xe0) + (if load then 0x10 else 0) == 16 * x;
  }

  lemma BitSmall(o: Operand)
    ensures Bit(o) < 2
  {
  }

  lemma OperandDecodes(o: Operand)
    requires SmallOperand(o)
    ensures OperandOf(OperandByte(o), Bit(o) == 1) == o
  {
  }

  lemma NoTest(n: nat)
    requires n < 9 || 16 <= n < 25 || n > 26
    ensures TestOf(n).None?
  {
  }

  lemma BurstDecodes(base: Base, first: nat, o: Operand, count: nat, load: bool, pc: int)
    requires BurstFits(base, first, o, count)
    ensures var (a, b, c, d) := BurstBytes(base, first, o, count, load);
            DecodeBytes(a, b, c, d, pc) == Some(if load then Load(base, first, o, count) else Store(base, first, o, count))
  {
    hide BurstBytes, TestOf, AluOf, OperandOf, OperandByte, Bit;
    var (a, b, c, d) := BurstBytes(base, first, o, count, load);
    BurstFields(base, first, o, count, load);
    BitSmall(o);
    NoTest(d / 8);
    OperandDecodes(o);
    var x := (if base.Table? then 8 else 14) + if load then 1 else 0;
    assert DecodeBytes(a, b, c, d, pc) == BurstOf(x, b % 32, first, o, count - 1);
  }

  lemma AluDecodes(op: AluOp, dst: Code, src: Code, o: Operand, pc: int)
    requires SmallOperand(o)
    ensures DecodeBytes(dst, src, OperandByte(o), 2 * AluNumber(op) + Bit(o), pc) == Some(Alu(op, dst, src, o))
  {
    var n := AluNumber(op);
    var d := 2 * n + Bit(o);
    assert n <= 15 && AluOf(n) == Some(op);
    Quotient(d, 2, n, Bit(o));
    assert d / 8 < 4 && d / 16 < 2;
    assert TestOf(d / 8).None?;
    assert OperandOf(OperandByte(o), Bit(o) == 1) == o;
    hide TestOf, AluOf, AluNumber, OperandOf, Bit, OperandByte;
  }

  lemma BranchDecodes(test: Test, src: Code, o: Operand, target: int, pc: int)
    requires SmallOperand(o) && -0x200 <= target - pc < 0x200
    ensures var far := (target - pc) % 0x400;
            DecodeBytes(far % 0x100, src, OperandByte(o), 8 * TestNumber(test) + 2 * (far / 0x100) + Bit(o), pc)
            == Some(Branch(test, src, o, target))
  {
    hide TestOf, TestNumber, OperandOf, Bit, OperandByte;
    var far, n := (target - pc) % 0x400, TestNumber(test);
    NumberedTest(test);
    BitSmall(o);
    BranchByte(n, far / 0x100, Bit(o));
    OperandDecodes(o);
    Relative(target - pc);
  }

  lemma NumberedTest(test: Test)
    ensures 9 <= TestNumber(test) <= 26 && TestOf(TestNumber(test)) == Some(test)
  {
  }

  lemma BranchByte(n: nat, high: nat, bit: nat)
    requires n < 32 && high < 4 && bit < 2
    ensures var d := 8 * n + 2 * high + bit; d / 8 == n && d / 2 % 4 == high && d % 2 == bit
  {
    var d := 8 * n + 2 * high + bit;
    Quotient(d, 8, n, 2 * high + bit);
    Quotient(d, 2, 4 * n + high, bit);
    Quotient(4 * n + high, 4, n, high);
  }

  lemma Relative(distance: int)
    requires -0x200 <= distance < 0x200
    ensures var far := distance % 0x400;
            far % 0x100 + far / 0x100 * 0x100 == far && distance == if far >= 0x200 then far - 0x400 else far
  {
  }

  lemma JumpDecodes(o: Operand, dst: Code, call: bool, pc: int)
    requires WideOperand(o)
    ensures var i := if call then Call(dst, o) else Jump(o);
            var (a, b, c, d) := EncodeBytes(i, pc);
            DecodeBytes(a, b, c, d, pc) == Some(i)
  {
    hide AluOf;
  }

  /** Every instruction that fits into a word is decoded from that word, at any place. */
  lemma DecodeEncode(i: Instruction, pc: int)
    requires Encodable(i, pc)
    ensures Decode(Encode(i, pc), pc) == Some(i)
  {
    var (a, b, c, d) := EncodeBytes(i, pc);
    DigitsJoin(a, b, c, d);
    assert DecodeBytes(a, b, c, d, pc) == Some(i) by { BytesDecode(i, pc); }
    hide D0, D1, D2, D3, Join, DecodeBytes, EncodeBytes;
  }

  lemma LoadDecodes(dst: Code, v: u32, pc: int)
    requires v < 0x1_0000
    ensures DecodeBytes(dst, v % 0x100, v / 0x100, 0x24, pc) == Some(Ldi(dst, v))
  {
    hide AluOf;
  }

  lemma HaltDecodes(pc: int)
    ensures DecodeBytes(0, 0, 0, 42, pc) == Some(Halt)
  {
    hide AluOf;
  }

  lemma BytesDecode(i: Instruction, pc: int)
    requires Encodable(i, pc)
    ensures var (a, b, c, d) := EncodeBytes(i, pc); DecodeBytes(a, b, c, d, pc) == Some(i)
  {
    hide DecodeBytes, BurstBytes, OperandByte, Bit, AluNumber, TestNumber;
    match i
    case Load(base, first, o, count) => BurstDecodes(base, first, o, count, true, pc);
    case Store(base, first, o, count) => BurstDecodes(base, first, o, count, false, pc);
    case Alu(op, dst, src, o) => AluDecodes(op, dst, src, o, pc);
    case Branch(test, src, o, target) => BranchDecodes(test, src, o, target, pc);
    case Jump(o) => JumpDecodes(o, 0, false, pc);
    case Call(dst, o) => JumpDecodes(o, dst, true, pc);
    case Ldi(dst, v) => LoadDecodes(dst, v, pc);
    case Halt => HaltDecodes(pc);
  }

  /** A GPIO write: when, which block, which register, the value and the instruction. */
  datatype Event = Event(cycle: nat, bank: nat, offset: int, value: u32, pc: int)

  datatype Machine = Machine(
    r: Registers,
    ram: seq<byte>,
    gpio: seq<u32>,
    oe: seq<u32>,
    stuck: seq<u32>,
    syscfg: u32,
    ctbir: u32,
    pc: int,
    cycles: nat,
    halted: bool,
    events: seq<Event>,
    readbacks: seq<(nat, nat)>,
    statuses: seq<(nat, u32)>,
    grants: seq<(nat, u32)>,
    completions: seq<(nat, u32)>)

  const RAM_BYTES := 8192
  const CONFIG_ENTRY := 4
  const RAM_ENTRY := 24
  const SYSCFG := 0x26004
  const CTBIR := 0x22020
  const OE := 0x134
  const DATAOUT := 0x13c
  const CLEAR := 0x190
  const SET := 0x194

  predicate Shaped(m: Machine) {
    |m.ram| == RAM_BYTES && |m.gpio| == 3 && |m.oe| == 3 && |m.stuck| == 3
  }

  /** GPIO2, GPIO1, GPIO0 by their base address. */
  function BlockAt(address: int): Option<nat> {
    var base := address - address % 0x1000;
    if base == 0x481ac000 then Some(0) else if base == 0x4804c000 then Some(1)
    else if base == 0x44e07000 then Some(2) else None
  }

  /** The LED pins of a block. */
  function FixedMask(block: nat): u32 {
    if block == 0 then 0x1a else if block == 1 then 0x5000 else 0x0400_0000
  }

  function Bitwise(f: (bool, bool) -> bool, a: nat, b: nat, n: nat): nat {
    if n == 0 then 0
    else 2 * Bitwise(f, a / 2, b / 2, n - 1) + if f(a % 2 == 1, b % 2 == 1) then 1 else 0
  }

  function AndWord(a: u32, b: u32): u32 { Cut(Bitwise((p, q) => p && q, a, b, 32)) }
  function OrWord(a: u32, b: u32): u32 { Cut(Bitwise((p, q) => p || q, a, b, 32)) }
  function XorWord(a: u32, b: u32): u32 { Cut(Bitwise((p, q) => p != q, a, b, 32)) }

  function AluResult(op: AluOp, a: u32, b: u32): int {
    match op
    case Add => a + b
    case Sub => a - b
    case Lsl => a * Pow2(b % 32)
    case Lsr => a / Pow2(b % 32)
    case And => AndWord(a, b)
    case Or => OrWord(a, b)
    case Xor => XorWord(a, b)
    case Not => -1 - a
    case Clr => if BitOf(a, b % 32) then a - Pow2(b % 32) else a
    case Set => if BitOf(a, b % 32) then a else a + Pow2(b % 32)
  }

  /** Branches compare the second operand with the first: QBLT is taken when b < a. */
  predicate Taken(test: Test, a: u32, b: u32) {
    match test
    case Lt => b < a case Eq => b == a case Le => b <= a case Gt => b > a case Ne => b != a case Ge => b >= a
    case Always => true
    case BitClear => !BitOf(a, b % 32)
    case BitSet => BitOf(a, b % 32)
  }

  function ValueOf(r: Registers, o: Operand): u32 {
    match o
    case Imm(v) => v
    case Field(c) => Reg(r, c)
  }

  /** The field code of the n-th byte of the register file, as the burst instructions compute it: past
      register 31 the register number runs into the part bits. */
  function ByteCode(n: nat): Code
    requires n < 256
  {
    if n / 4 < 32 then n / 4 + 32 * (n % 4)
    else n / 4 - 32 + 32 * if n % 2 == 1 then n % 4 else n % 4 + 1
  }

  function GetBytes(r: Registers, first: nat, count: nat): (b: seq<byte>)
    requires first + count <= 256
    ensures |b| == count
  {
    if count == 0 then []
    else GetBytes(r, first, count - 1) + [Reg(r, ByteCode(first + count - 1)) % 0x100]
  }

  function PutBytes(r: Registers, first: nat, data: seq<byte>): Registers
    requires first + |data| <= 256
  {
    if data == [] then r
    else Put(PutBytes(r, first, data[..|data| - 1]), ByteCode(first + |data| - 1), data[|data| - 1])
  }

  function WordBytes(x: u32): (b: seq<byte>) { [D0(x), D1(x), D2(x), D3(x)] }

  function WordAt(ram: seq<byte>, offset: nat): u32
    requires offset + 4 <= |ram|
  {
    Join(ram[offset], ram[offset + 1], ram[offset + 2], ram[offset + 3])
  }

  /** The constant-table entries the audit knows. */
  predicate KnownBase(base: Base) {
    base.Table? ==> base.entry == CONFIG_ENTRY || base.entry == RAM_ENTRY
  }

  function AddressOf(m: Machine, base: Base, operand: Operand): int {
    ValueOf(m.r, operand) +
    match base
    case Table(entry) => if entry == CONFIG_ENTRY then 0x26000 else m.ctbir % 0x100 * 0x100
    case Register(i) => if 0 <= i < 32 then m.r[i] else 0
  }

  /** A read: RAM (cut at its end), a control register, a direction or an output latch. */
  function Read(m: Machine, address: int, count: nat): (data: Option<seq<byte>>)
    requires Shaped(m) && address >= 0
    ensures data.Some? ==> |data.value| <= count || |data.value| == 4
  {
    if address < RAM_BYTES then Some(m.ram[address..if address + count < RAM_BYTES then address + count else RAM_BYTES])
    else if address == SYSCFG then Some(WordBytes(m.syscfg))
    else if address == CTBIR then Some(WordBytes(m.ctbir))
    else match BlockAt(address)
      case None => None
      case Some(k) =>
        if count != 4 then None
        else if address % 0x1000 == OE then Some(WordBytes(m.oe[k]))
        else if address % 0x1000 == DATAOUT then Some(WordBytes(OrWord(m.gpio[k], m.stuck[k])))
        else None
  }

  function Observed(m: Machine, address: int): Machine {
    if address >= RAM_BYTES && address != SYSCFG && address != CTBIR && address % 0x1000 == DATAOUT && BlockAt(address).Some?
    then m.(readbacks := m.readbacks + [(m.cycles, BlockAt(address).value)]) else m
  }

  /** A write: one of the six handshake words of the firmware, a control register, or a SET or CLEAR of
      LED pins, the SET only under a matching grant. Anything else is refused. */
  function Write(m: Machine, address: int, data: seq<byte>): Option<Machine>
    requires Shaped(m)
  {
    if address < RAM_BYTES then
      if address !in {44, 48, 52, 56, 64, 68} || |data| != 4 then None
      else
        var n := m.(ram := m.ram[..address] + data + m.ram[address + 4..]);
        var w := Join(data[0], data[1], data[2], data[3]);
        if address == 48 then Some(n.(statuses := m.statuses + [(m.cycles, w)]))
        else if address == 64 && w != 0 then
          if w <= 3 && AndWord(m.gpio[w - 1], FixedMask(w - 1)) == 0
             && m.readbacks != [] && m.readbacks[|m.readbacks| - 1].1 == w - 1
          then Some(n.(completions := m.completions + [(m.cycles, w)])) else None
        else Some(n)
    else if |data| != 4 then None
    else
      var v := Join(data[0], data[1], data[2], data[3]);
      if address == SYSCFG then Some(m.(syscfg := v))
      else if address == CTBIR then Some(m.(ctbir := v))
      else match BlockAt(address)
        case None => None
        case Some(k) => PinWrite(m, k, address % 0x1000, v)
  }

  function PinWrite(m: Machine, k: nat, offset: int, v: u32): Option<Machine>
    requires Shaped(m) && k < 3
  {
    if OrWord(v, FixedMask(k)) != FixedMask(k) then None
    else if offset == SET then
      if m.grants != [] && m.grants[|m.grants| - 1].1 == k + 1
      then Some(m.(gpio := m.gpio[k := OrWord(m.gpio[k], v)], events := m.events + [Event(m.cycles, k, offset, v, m.pc)]))
      else None
    else if offset == CLEAR then
      Some(m.(gpio := m.gpio[k := AndWord(m.gpio[k], Cut(-1 - v))], events := m.events + [Event(m.cycles, k, offset, v, m.pc)]))
    else None
  }

  /** One instruction without the shortcut; None where the audit's assertions fail. */
  function Plain(code: seq<Instruction>, m: Machine): Option<Machine>
    requires Shaped(m)
  {
    if !(0 <= m.pc < |code|) then None
    else match code[m.pc]
      case Ldi(dst, v) => Some(Next(m.(r := Put(m.r, dst, v)), m.pc + 1))
      case Alu(op, dst, src, operand) =>
        Some(Next(m.(r := Put(m.r, dst, AluResult(op, Reg(m.r, src), ValueOf(m.r, operand)))), m.pc + 1))
      case Branch(test, src, operand, target) =>
        Some(Next(m, if Taken(test, Reg(m.r, src), ValueOf(m.r, operand)) then target else m.pc + 1))
      case Jump(operand) => Some(Next(m, ValueOf(m.r, operand)))
      case Call(dst, operand) => Some(Next(m.(r := Put(m.r, dst, m.pc + 1)), ValueOf(m.r, operand)))
      case Load(base, first, operand, count) =>
        var address := AddressOf(m, base, operand);
        var data := Read(m, address, count);
        if KnownBase(base) && data.Some? && first + |data.value| <= 256
        then Some(Next(Observed(m, address).(r := PutBytes(m.r, first, data.value)), m.pc + 1)) else None
      case Store(base, first, operand, count) =>
        if !KnownBase(base) || first + count > 256 then None
        else
          var n := Write(m, AddressOf(m, base, operand), GetBytes(m.r, first, count));
          if n.Some? then Some(Next(n.value, m.pc + 1)) else None
      case Halt => Some(Next(m.(halted := true), m.pc + 1))
  }

  function Next(m: Machine, pc: int): Machine {
    m.(cycles := m.cycles + 1, pc := pc)
  }

  predicate IsDecrement(i: Instruction) {
    i.Alu? && i.op == Sub && i.dst == i.src && i.operand == Imm(1)
  }

  /** SUB c, c, 1 followed by QBNE back to it until c is zero. */
  predicate AtDelay(code: seq<Instruction>, pc: int) {
    && 0 <= pc && pc + 1 < |code| && IsDecrement(code[pc])
    && code[pc + 1] == Branch(Ne, code[pc].dst, Imm(0), pc)
  }

  /** One step of the audit: a delay loop is taken in one go, and refused when its count is zero. */
  function Fast(code: seq<Instruction>, m: Machine): Option<Machine>
    requires Shaped(m)
  {
    if AtDelay(code, m.pc) then
      var count := Reg(m.r, code[m.pc].dst);
      if count == 0 then None
      else Some(m.(r := Put(m.r, code[m.pc].dst, 0), cycles := m.cycles + 2 * count, pc := m.pc + 2))
    else if 0 <= m.pc == |code| - 1 && IsDecrement(code[m.pc]) then None
    else Plain(code, m)
  }

  lemma WriteKeepsShape(m: Machine, address: int, data: seq<byte>)
    requires Shaped(m) && address >= 0
    ensures Write(m, address, data).Some? ==>
              Shaped(Write(m, address, data).value) && Write(m, address, data).value.cycles == m.cycles
  {
    hide AndWord, OrWord, Cut, Join, FixedMask;
  }

  lemma PlainKeepsShape(code: seq<Instruction>, m: Machine)
    requires Shaped(m)
    ensures Plain(code, m).Some? ==> Shaped(Plain(code, m).value) && Plain(code, m).value.cycles == m.cycles + 1
  {
    hide Reg, Put, AluResult, Write, Read, GetBytes, PutBytes, Cut, Taken, BlockAt, AddressOf;
    if 0 <= m.pc < |code| && code[m.pc].Store? && code[m.pc].first + code[m.pc].count <= 256 {
      var i := code[m.pc];
      AddressNonnegative(m, i.base, i.operand);
      WriteKeepsShape(m, AddressOf(m, i.base, i.operand), GetBytes(m.r, i.first, i.count));
    }
  }

  lemma AddressNonnegative(m: Machine, base: Base, operand: Operand)
    ensures AddressOf(m, base, operand) >= 0
  {
    hide Reg;
  }

  lemma StepKeepsShape(code: seq<Instruction>, m: Machine)
    requires Shaped(m)
    ensures Plain(code, m).Some? ==> Shaped(Plain(code, m).value) && Plain(code, m).value.cycles == m.cycles + 1
    ensures Fast(code, m).Some? ==> Shaped(Fast(code, m).value) && Fast(code, m).value.cycles > m.cycles
  {
    hide Plain, Put, Reg;
    PlainKeepsShape(code, m);
  }

  // ---------------------------------------------------------------- runs

  function Run(code: seq<Instruction>, m: Machine, n: nat): Option<Machine>
    requires Shaped(m)
    decreases n
  {
    if n == 0 then Some(m)
    else
      StepKeepsShape(code, m);
      var next := Plain(code, m);
      if next.Some? then Run(code, next.value, n - 1) else None
  }

  function FastRun(code: seq<Instruction>, m: Machine, n: nat): Option<Machine>
    requires Shaped(m)
    decreases n
  {
    if n == 0 then Some(m)
    else
      StepKeepsShape(code, m);
      var next := Fast(code, m);
      if next.Some? then FastRun(code, next.value, n - 1) else None
  }

  lemma {:induction false} RunKeepsShape(code: seq<Instruction>, m: Machine, n: nat)
    requires Shaped(m)
    ensures Run(code, m, n).Some? ==> Shaped(Run(code, m, n).value) && Run(code, m, n).value.cycles == m.cycles + n
    decreases n
  {
    hide Plain;
    if n > 0 {
      StepKeepsShape(code, m);
      var next := Plain(code, m);
      if next.Some? { RunKeepsShape(code, next.value, n - 1); }
    }
  }

  lemma {:induction false} FastRunKeepsShape(code: seq<Instruction>, m: Machine, n: nat)
    requires Shaped(m)
    ensures FastRun(code, m, n).Some? ==> Shaped(FastRun(code, m, n).value) && FastRun(code, m, n).value.cycles >= m.cycles + n
    decreases n
  {
    hide Fast;
    if n > 0 {
      StepKeepsShape(code, m);
      var next := Fast(code, m);
      if next.Some? { FastRunKeepsShape(code, next.value, n - 1); }
    }
  }

  lemma {:induction false} RunAdds(code: seq<Instruction>, m: Machine, a: nat, b: nat)
    requires Shaped(m) && Run(code, m, a).Some?
    ensures Shaped(Run(code, m, a).value) && Run(code, m, a + b) == Run(code, Run(code, m, a).value, b)
    decreases a
  {
    hide Plain;
    if a > 0 {
      StepKeepsShape(code, m);
      RunAdds(code, Plain(code, m).value, a - 1, b);
    }
  }

  /** Two plain steps: one turn of a delay loop whose count is not yet used up. */
  lemma DelayTurn(code: seq<Instruction>, m: Machine)
    requires Shaped(m) && AtDelay(code, m.pc) && Reg(m.r, code[m.pc].dst) > 0
    ensures var c := code[m.pc].dst;
            var left := Reg(m.r, c) - 1;
            Run(code, m, 2) == Some(m.(r := Put(m.r, c, left), cycles := m.cycles + 2, pc := if left > 0 then m.pc else m.pc + 2))
    ensures Reg(Put(m.r, code[m.pc].dst, Reg(m.r, code[m.pc].dst) - 1), code[m.pc].dst) == Reg(m.r, code[m.pc].dst) - 1
  {
    hide Put, Reg, Plain, Run, Shaped;
    var c := code[m.pc].dst;
    var left := Reg(m.r, c) - 1;
    CountsDown(m.r, c);
    var middle := Next(m.(r := Put(m.r, c, left)), m.pc + 1);
    assert Shaped(middle) by { NextShaped(m, Put(m.r, c, left)); }
    Decrement(code, m);
    BranchBack(code, middle, m.pc);
    TwoSteps(code, m, middle);
  }

  lemma NextShaped(m: Machine, r: Registers)
    requires Shaped(m)
    ensures Shaped(Next(m.(r := r), m.pc + 1))
  {
  }

  lemma TwoSteps(code: seq<Instruction>, a: Machine, b: Machine)
    requires Shaped(a) && Shaped(b) && Plain(code, a) == Some(b) && Plain(code, b).Some?
    ensures Run(code, a, 2) == Plain(code, b)
  {
    hide Plain;
    StepKeepsShape(code, b);
    assert Run(code, b, 1) == Plain(code, b);
  }

  lemma Decrement(code: seq<Instruction>, m: Machine)
    requires Shaped(m) && 0 <= m.pc < |code| && IsDecrement(code[m.pc])
    ensures Plain(code, m) == Some(Next(m.(r := Put(m.r, code[m.pc].dst, Reg(m.r, code[m.pc].dst) - 1)), m.pc + 1))
  {
    hide Put, Reg;
  }

  lemma BranchBack(code: seq<Instruction>, m: Machine, p: int)
    requires Shaped(m) && AtDelay(code, p) && m.pc == p + 1
    ensures Plain(code, m) == Some(Next(m, if Reg(m.r, code[p].dst) != 0 then p else p + 2))
  {
    hide Put, Reg;
  }

  lemma CountsDown(r: Registers, c: Code)
    requires Reg(r, c) > 0
    ensures Reg(Put(r, c, Reg(r, c) - 1), c) == Reg(r, c) - 1
  {
    hide Put, Reg, PartOf, Span;
    RegFits(r, c);
    PutLaws(r, c, Reg(r, c) - 1, 0);
    SpanPositive(PartOf(c));
    Quotient(Reg(r, c) - 1, Span(PartOf(c)), 0, Reg(r, c) - 1);
  }

  lemma SpanPositive(p: Part)
    ensures Span(p) > 0
  {
  }

  lemma RegFits(r: Registers, c: Code)
    ensures Reg(r, c) < Span(PartOf(c))
  {
    var x := r[Index(c)];
    assert D0(x) < 0x100 && D1(x) < 0x100 && D2(x) < 0x100 && D3(x) < 0x100;
    hide D0, D1, D2, D3;
  }

  /** The shortcut is exact: whatever 8-, 16- or 32-bit field counts the loop, taking it in one step equals
      twice that many plain steps in every register, RAM byte, GPIO latch and record, in pc and cycles. */
  lemma {:induction false} DelayExact(code: seq<Instruction>, m: Machine)
    requires Shaped(m) && AtDelay(code, m.pc) && Reg(m.r, code[m.pc].dst) > 0
    ensures Run(code, m, 2 * Reg(m.r, code[m.pc].dst)) == Fast(code, m)
    decreases Reg(m.r, code[m.pc].dst)
  {
    hide Put, Reg, Plain, Run;
    var c := code[m.pc].dst;
    var left := Reg(m.r, c) - 1;
    DelayTurn(code, m);
    if left > 0 {
      var next := m.(r := Put(m.r, c, left), cycles := m.cycles + 2);
      DelayExact(code, next);
      RunAdds(code, m, 2, 2 * left);
      PutLaws(m.r, c, left, 0);
    }
  }

  /** Every accelerated run is a plain run of the same number of cycles ending in the same state. */
  lemma {:induction false} FastIsPlain(code: seq<Instruction>, m: Machine, n: nat)
    requires Shaped(m) && FastRun(code, m, n).Some?
    ensures var t := FastRun(code, m, n).value;
            t.cycles >= m.cycles && Run(code, m, t.cycles - m.cycles) == Some(t)
    decreases n
  {
    hide Plain, Fast;
    if n > 0 {
      StepKeepsShape(code, m);
      var next := Fast(code, m).value;
      FastRunKeepsShape(code, next, n - 1);
      FastIsPlain(code, next, n - 1);
      FastStepIsPlain(code, m);
      RunAdds(code, m, next.cycles - m.cycles, FastRun(code, m, n).value.cycles - next.cycles);
    }
  }

  lemma FastStepIsPlain(code: seq<Instruction>, m: Machine)
    requires Shaped(m) && Fast(code, m).Some?
    ensures Fast(code, m).value.cycles > m.cycles
    ensures Run(code, m, Fast(code, m).value.cycles - m.cycles) == Fast(code, m)
  {
    hide Plain;
    StepKeepsShape(code, m);
    if AtDelay(code, m.pc) {
      DelayExact(code, m);
    } else {
      var next := Plain(code, m);
      assert Run(code, next.value, 0) == next;
      assert Run(code, m, 1) == next;
    }
  }

  /** The plain machine is between the two ends of the delay loop at which the accelerated one stands. */
  predicate Inside(code: seq<Instruction>, t: Machine, u: Machine) {
    && Shaped(t) && AtDelay(code, t.pc)
    && t.cycles < u.cycles < t.cycles + 2 * Reg(t.r, code[t.pc].dst)
    && Run(code, t, u.cycles - t.cycles) == Some(u)
  }

  /** The accelerated step refuses what the plain one would take: a loop with a zero count, or a decrement
      with nothing behind it. */
  predicate Refused(code: seq<Instruction>, t: Machine) {
    || (AtDelay(code, t.pc) && Reg(t.r, code[t.pc].dst) == 0)
    || (0 <= t.pc == |code| - 1 && IsDecrement(code[t.pc]))
  }

  /** Where the plain machine is when the accelerated one stands at t. */
  predicate Tracks(code: seq<Instruction>, t: Machine, u: Machine) {
    t == u || Inside(code, t, u) || (Refused(code, t) && t.cycles <= u.cycles)
  }

  /** And conversely: every plain run is at a state of the accelerated run, or inside a delay loop the
      accelerated run is about to take in one step, or past a point where the accelerated run was refused at
      a zero count. */
  lemma {:induction false} PlainIsFast(code: seq<Instruction>, m: Machine, k: nat)
    requires Shaped(m) && Run(code, m, k).Some?
    ensures exists n: nat :: FastRun(code, m, n).Some? && Tracks(code, FastRun(code, m, n).value, Run(code, m, k).value)
    decreases k
  {
    hide Plain, Fast, Run, Inside, Refused;
    NoFastSteps(code, m);
    if k == 0 {
      NoSteps(code, m);
      assert Tracks(code, FastRun(code, m, 0).value, Run(code, m, k).value);
    } else if Fast(code, m).None? {
      RefusedAt(code, m, k);
      RunKeepsShape(code, m, k);
      assert Tracks(code, FastRun(code, m, 0).value, Run(code, m, k).value);
    } else {
      var next := Fast(code, m).value;
      StepKeepsShape(code, m);
      FastStepIsPlain(code, m);
      var d := next.cycles - m.cycles;
      if d <= k {
        RunAdds(code, m, d, k - d);
        PlainIsFast(code, next, k - d);
        var n: nat :| FastRun(code, next, n).Some? && Tracks(code, FastRun(code, next, n).value, Run(code, m, k).value);
        assert FastRun(code, m, n + 1) == FastRun(code, next, n);
      } else {
        RunKeepsShape(code, m, k);
        InsideLoop(code, m, k);
        assert Tracks(code, FastRun(code, m, 0).value, Run(code, m, k).value);
      }
    }
  }

  lemma NoFastSteps(code: seq<Instruction>, m: Machine)
    requires Shaped(m)
    ensures FastRun(code, m, 0) == Some(m)
  {
  }

  lemma RefusedAt(code: seq<Instruction>, m: Machine, k: nat)
    requires Shaped(m) && Fast(code, m).None? && k > 0 && Run(code, m, k).Some?
    ensures Refused(code, m)
  {
    hide Plain;
  }

  lemma NoSteps(code: seq<Instruction>, m: Machine)
    requires Shaped(m)
    ensures Run(code, m, 0) == Some(m)
  {
  }

  lemma InsideLoop(code: seq<Instruction>, m: Machine, k: nat)
    requires Shaped(m) && Fast(code, m).Some? && 0 < k < Fast(code, m).value.cycles - m.cycles
    requires Run(code, m, k).Some? && Run(code, m, k).value.cycles == m.cycles + k
    ensures Inside(code, m, Run(code, m, k).value)
  {
    StepKeepsShape(code, m);
    hide Plain, Run;
  }

  // ---------------------------------------------------------------- the emulator object

  /** The emulated machine as the audit keeps it: every method updates its fields in place, and a failed
      assertion is reported by its result. */
  class Emulator {
    const code: seq<Instruction>
    const oe: seq<u32>
    const stuck: seq<u32>
    var r: Registers
    var ram: seq<byte>
    var gpio: seq<u32>
    var syscfg: u32
    var ctbir: u32
    var pc: int
    var cycles: nat
    var halted: bool
    var events: seq<Event>
    var readbacks: seq<(nat, nat)>
    var statuses: seq<(nat, u32)>
    var grants: seq<(nat, u32)>
    var completions: seq<(nat, u32)>
    var fastLoops: nat

    function State(): Machine
      reads this
    {
      Machine(r, ram, gpio, oe, stuck, syscfg, ctbir, pc, cycles, halted, events, readbacks, statuses, grants, completions)
    }

    constructor (program: seq<Instruction>, m: Machine)
      ensures code == program && State() == m && fastLoops == 0
    {
      code := program;
      r, ram, gpio, oe, stuck := m.r, m.ram, m.gpio, m.oe, m.stuck;
      syscfg, ctbir, pc, cycles, halted := m.syscfg, m.ctbir, m.pc, m.cycles, m.halted;
      events, readbacks, statuses, grants, completions := m.events, m.readbacks, m.statuses, m.grants, m.completions;
      fastLoops := 0;
    }

    /** put. */
    method PutField(c: Code, v: int)
      modifies this`r
      ensures r == Put(old(r), c, v)
    {
      r := Put(r, c, v);
    }

    /** The register side of a burst load: byte by byte. */
    method PutBurst(first: nat, data: seq<byte>)
      requires first + |data| <= 256
      modifies this`r
      ensures r == PutBytes(old(r), first, data)
    {
      hide Put;
      for i := 0 to |data|
        invariant r == PutBytes(old(r), first, data[..i])
      {
        assert data[..i + 1][..i] == data[..i];
        PutField(ByteCode(first + i), data[i]);
      }
      assert data[..|data|] == data;
    }

    /** The register side of a burst store. */
    method GetBurst(first: nat, count: nat) returns (data: seq<byte>)
      requires first + count <= 256
      ensures data == GetBytes(r, first, count)
    {
      hide Reg;
      data := [];
      for i := 0 to count
        invariant data == GetBytes(r, first, i)
      {
        data := data + [Reg(r, ByteCode(first + i)) % 0x100];
      }
    }

    /** write. */
    method Store(address: int, data: seq<byte>) returns (ok: bool)
      requires Shaped(State()) && address >= 0
      modifies this`ram, this`gpio, this`syscfg, this`ctbir, this`events, this`statuses, this`completions
      ensures ok == Write(old(State()), address, data).Some?
      ensures ok ==> State() == Write(old(State()), address, data).value
    {
      hide AndWord, OrWord, Cut, Join, FixedMask;
      if address < RAM_BYTES {
        if address !in {44, 48, 52, 56, 64, 68} || |data| != 4 { return false; }
        ram := ram[..address] + data + ram[address + 4..];
        var w := Join(data[0], data[1], data[2], data[3]);
        if address == 48 { statuses := statuses + [(cycles, w)]; }
        if address == 64 && w != 0 {
          if w > 3 || AndWord(gpio[w - 1], FixedMask(w - 1)) != 0 { return false; }
          if readbacks == [] || readbacks[|readbacks| - 1].1 != w - 1 { return false; }
          completions := completions + [(cycles, w)];
        }
        return true;
      }
      if |data| != 4 { return false; }
      var v := Join(data[0], data[1], data[2], data[3]);
      if address == SYSCFG { syscfg := v; return true; }
      if address == CTBIR { ctbir := v; return true; }
      var block := BlockAt(address);
      if block.None? { return false; }
      var k, offset := block.value, address % 0x1000;
      if (offset != SET && offset != CLEAR) || OrWord(v, FixedMask(k)) != FixedMask(k) { return false; }
      if offset == SET {
        if grants == [] || grants[|grants| - 1].1 != k + 1 { return false; }
        gpio := gpio[k := OrWord(gpio[k], v)];
      } else {
        gpio := gpio[k := AndWord(gpio[k], Cut(-1 - (v as int)))];
      }
      events := events + [Event(cycles, k, offset, v, pc)];
      ok := true;
    }

    /** step: a delay loop is taken in one go, anything else instruction by instruction. */
    method Step() returns (ok: bool)
      requires Shaped(State())
      modifies this
      ensures ok == Fast(code, old(State())).Some?
      ensures ok ==> State() == Fast(code, old(State())).value && Shaped(State())
      ensures ok ==> fastLoops == old(fastLoops) + if AtDelay(code, old(pc)) then 1 else 0
    {
      hide Reg, Put, AluResult, Write, GetBytes, PutBytes, Cut, Taken, BlockAt, OrWord, Join, D0, D1, D2, D3;
      StepKeepsShape(code, State());
      if !(0 <= pc < |code|) { return false; }
      if IsDecrement(code[pc]) {
        if pc + 1 == |code| { return false; }
        if code[pc + 1] == Branch(Ne, code[pc].dst, Imm(0), pc) {
          var count: int := Reg(r, code[pc].dst);
          if count == 0 { return false; }
          PutField(code[pc].dst, 0);
          cycles := cycles + 2 * count;
          pc := pc + 2;
          fastLoops := fastLoops + 1;
          return true;
        }
      }
      ok := Execute(code[pc]);
    }

    /** read, into consecutive register bytes. */
    method LoadBurst(address: int, first: nat, count: nat) returns (ok: bool)
      requires Shaped(State()) && address >= 0
      modifies this`r, this`readbacks
      ensures var data := Read(old(State()), address, count);
              && ok == (data.Some? && first + |data.value| <= 256)
              && (ok ==> State() == Observed(old(State()), address).(r := PutBytes(old(r), first, data.value)))
    {
      hide Read, PutBytes, BlockAt;
      var data := Read(State(), address, count);
      if data.None? || first + |data.value| > 256 { return false; }
      readbacks := Observed(State(), address).readbacks;
      PutBurst(first, data.value);
      ok := true;
    }

    /** One instruction. */
    method Execute(i: Instruction) returns (ok: bool)
      requires Shaped(State()) && 0 <= pc < |code| && i == code[pc]
      modifies this
      ensures ok == Plain(code, old(State())).Some? && fastLoops == old(fastLoops)
      ensures ok ==> State() == Plain(code, old(State())).value
    {
      hide Reg, Put, AluResult, Write, GetBytes, PutBytes, Cut, Taken, Read, Observed, AddressOf, KnownBase, ValueOf;
      var nextPc := pc + 1;
      match i {
        case Ldi(dst, v) => PutField(dst, v);
        case Alu(op, dst, src, operand) => PutField(dst, AluResult(op, Reg(r, src), ValueOf(r, operand)));
        case Branch(test, src, operand, target) =>
          if Taken(test, Reg(r, src), ValueOf(r, operand)) { nextPc := target; }
        case Jump(operand) => nextPc := ValueOf(r, operand);
        case Call(dst, operand) =>
          var target := ValueOf(r, operand);
          PutField(dst, nextPc);
          nextPc := target;
        case Load(base, first, operand, count) =>
          if !KnownBase(base) { return false; }
          AddressNonnegative(State(), base, operand);
          var loaded := LoadBurst(AddressOf(State(), base, operand), first, count);
          if !loaded { return false; }
        case Store(base, first, operand, count) =>
          if !KnownBase(base) || first + count > 256 { return false; }
          AddressNonnegative(State(), base, operand);
          var data := GetBurst(first, count);
          var stored := Store(AddressOf(State(), base, operand), data);
          if !stored { return false; }
        case Halt => halted := true;
      }
      cycles := cycles + 1;
      pc := nextPc;
      ok := true;
    }

    /** Any number of steps: the state reached is that of the plain machine after as many cycles. */
    method StepMany(n: nat) returns (ok: bool)
      requires Shaped(State())
      modifies this
      ensures ok ==> Shaped(State()) && FastRun(code, old(State()), n) == Some(State())
      ensures ok ==> cycles >= old(cycles) && Run(code, old(State()), cycles - old(cycles)) == Some(State())
    {
      hide Fast, Run;
      ghost var begin := State();
      for k := 0 to n
        invariant Shaped(State()) && FastRun(code, begin, k) == Some(State())
      {
        ghost var before := State();
        var stepped := Step();
        if !stepped { return false; }
        FastRunOneMore(code, begin, before, k);
      }
      FastIsPlain(code, begin, n);
      ok := true;
    }
  }

  lemma {:induction false} FastRunOneMore(code: seq<Instruction>, m: Machine, t: Machine, k: nat)
    requires Shaped(m) && Shaped(t) && FastRun(code, m, k) == Some(t) && Fast(code, t).Some?
    ensures FastRun(code, m, k + 1) == Fast(code, t)
    decreases k
  {
    hide Fast;
    StepKeepsShape(code, m);
    StepKeepsShape(code, t);
    if k > 0 {
      FastRunOneMore(code, Fast(code, m).value, t, k - 1);
    } else {
      assert FastRun(code, Fast(code, t).value, 0) == Fast(code, t);
    }
  }
}
